/**
 * The change-notification fan-out: a process-wide publish/subscribe hub that forwards every
 * change of the `biodegradation` table, as one server-sent-events record, to every open
 * event stream, plus the guard that opens the change-feed subscription only once.
 */
module Realtime {
  import opened Types

  /** The identity of one `ReadableStreamDefaultController`, that is, of one open push connection. */
  type Controller = nat

  /** One event-stream record as handed to `enqueue`. */
  type Message = string

  // ---------------------------------------------------------------------------------------------
  // What a controller receives, defined over the history of calls made on the hub

  /** One call made on the hub. */
  datatype Call =
    | SubscribeCall(c: Controller)
    | UnsubscribeCall(c: Controller)
    | BroadcastCall(m: Message)

  /** Whether `c` is in the subscriber set once `calls` have been made on a fresh hub. */
  predicate IsSubscribed(calls: seq<Call>, c: Controller)
    decreases |calls|
  {
    if calls == [] then false
    else
      var before := calls[..|calls| - 1];
      match calls[|calls| - 1]
      case SubscribeCall(d) => d == c || IsSubscribed(before, c)
      case UnsubscribeCall(d) => d != c && IsSubscribed(before, c)
      case BroadcastCall(_) => IsSubscribed(before, c)
  }

  /** What `c` is handed: each message broadcast while `c` was subscribed, in call order. */
  function Received(calls: seq<Call>, c: Controller): seq<Message>
    decreases |calls|
  {
    if calls == [] then []
    else
      var before := calls[..|calls| - 1];
      var last := calls[|calls| - 1];
      Received(before, c) + (if last.BroadcastCall? && IsSubscribed(before, c) then [last.m] else [])
  }

  /** Every message broadcast in `calls`, in call order. */
  function Broadcasts(calls: seq<Call>): seq<Message>
    decreases |calls|
  {
    if calls == [] then []
    else
      var last := calls[|calls| - 1];
      Broadcasts(calls[..|calls| - 1]) + (if last.BroadcastCall? then [last.m] else [])
  }

  /** No call in `calls` after position `i` unsubscribes `c`. */
  predicate NotUnsubscribedAfter(calls: seq<Call>, i: nat, c: Controller)
  {
    forall j :: i < j < |calls| ==> calls[j] != UnsubscribeCall(c)
  }

  /**
   * Set semantics of the subscriber set: `c` is subscribed exactly when some call subscribed it
   * and no later call unsubscribed it (subscribing twice does not need two unsubscribes).
   */
  lemma {:induction false} SubscribedIffNotUnsubscribedSince(calls: seq<Call>, c: Controller)
    ensures IsSubscribed(calls, c) <==>
              exists i :: 0 <= i < |calls| && calls[i] == SubscribeCall(c) && NotUnsubscribedAfter(calls, i, c)
    decreases |calls|
  {
    if calls != [] {
      var n := |calls|;
      var before := calls[..n - 1];
      SubscribedIffNotUnsubscribedSince(before, c);
      if calls[n - 1] == SubscribeCall(c) {
        assert IsSubscribed(calls, c);
        assert NotUnsubscribedAfter(calls, n - 1, c);
      } else if calls[n - 1] == UnsubscribeCall(c) {
        assert !IsSubscribed(calls, c);
        forall i | 0 <= i < n && calls[i] == SubscribeCall(c)
          ensures !NotUnsubscribedAfter(calls, i, c)
        {
          assert i < n - 1;
        }
      } else {
        assert IsSubscribed(calls, c) == IsSubscribed(before, c);
        if IsSubscribed(before, c) {
          var i :| 0 <= i < |before| && before[i] == SubscribeCall(c) && NotUnsubscribedAfter(before, i, c);
          assert calls[i] == SubscribeCall(c) && NotUnsubscribedAfter(calls, i, c);
        } else {
          forall i | 0 <= i < n && calls[i] == SubscribeCall(c)
            ensures !NotUnsubscribedAfter(calls, i, c)
          {
            assert i < n - 1 && before[i] == calls[i];
            assert !NotUnsubscribedAfter(before, i, c);
          }
        }
      }
    }
  }

  /** One call after which a subscribed controller is still subscribed, and what it is handed. */
  lemma StaysSubscribed(calls: seq<Call>, last: Call, c: Controller)
    requires IsSubscribed(calls, c) && last != UnsubscribeCall(c)
    ensures IsSubscribed(calls + [last], c)
    ensures Received(calls + [last], c) == Received(calls, c) + (if last.BroadcastCall? then [last.m] else [])
  {
    assert (calls + [last])[..|calls|] == calls;
  }

  lemma BroadcastsSnoc(calls: seq<Call>, last: Call)
    ensures Broadcasts(calls + [last]) == Broadcasts(calls) + (if last.BroadcastCall? then [last.m] else [])
  {
    assert (calls + [last])[..|calls|] == calls;
  }

  /**
   * A controller that stays subscribed through `more` (nothing in it unsubscribes it) is handed
   * every message broadcast in `more`, in order, after what it had already received.
   */
  lemma {:induction false} ReceivesEveryBroadcastWhileSubscribed(calls: seq<Call>, more: seq<Call>, c: Controller)
    requires IsSubscribed(calls, c)
    requires forall j :: 0 <= j < |more| ==> more[j] != UnsubscribeCall(c)
    ensures IsSubscribed(calls + more, c)
    ensures Received(calls + more, c) == Received(calls, c) + Broadcasts(more)
    decreases |more|
  {
    if more == [] {
      assert calls + more == calls;
    } else {
      var prefix := more[..|more| - 1];
      var last := more[|more| - 1];
      assert more == prefix + [last];
      assert calls + more == (calls + prefix) + [last];
      ReceivesEveryBroadcastWhileSubscribed(calls, prefix, c);
      StaysSubscribed(calls + prefix, last, c);
      BroadcastsSnoc(prefix, last);
    }
  }

  /**
   * A controller that is not subscribed, and that nothing in `more` subscribes, is handed nothing
   * during `more`: its queue is left as it was.
   */
  lemma {:induction false} ReceivesNothingWhileUnsubscribed(calls: seq<Call>, more: seq<Call>, c: Controller)
    requires !IsSubscribed(calls, c)
    requires forall j :: 0 <= j < |more| ==> more[j] != SubscribeCall(c)
    ensures !IsSubscribed(calls + more, c)
    ensures Received(calls + more, c) == Received(calls, c)
    decreases |more|
  {
    if more == [] {
      assert calls + more == calls;
    } else {
      var k := |more| - 1;
      ReceivesNothingWhileUnsubscribed(calls, more[..k], c);
      assert (calls + more)[..|calls + more| - 1] == calls + more[..k];
      assert (calls + more)[|calls + more| - 1] == more[k];
    }
  }

  /** A controller that is never subscribed receives nothing, whatever else happens. */
  lemma NeverSubscribedReceivesNothing(calls: seq<Call>, c: Controller)
    requires forall j :: 0 <= j < |calls| ==> calls[j] != SubscribeCall(c)
    ensures Received(calls, c) == []
  {
    ReceivesNothingWhileUnsubscribed([], calls, c);
    assert [] + calls == calls;
  }

  /**
   * A client connects, one change is broadcast, the client disconnects, another change is
   * broadcast: the client is handed exactly the first message, and is no longer subscribed.
   */
  lemma ConnectThenDisconnect(calls: seq<Call>, c: Controller, m1: Message, m2: Message)
    ensures !IsSubscribed(calls + [SubscribeCall(c), BroadcastCall(m1), UnsubscribeCall(c), BroadcastCall(m2)], c)
    ensures Received(calls + [SubscribeCall(c), BroadcastCall(m1), UnsubscribeCall(c), BroadcastCall(m2)], c)
            == Received(calls, c) + [m1]
  {
    var s1 := calls + [SubscribeCall(c)];
    var s2 := s1 + [BroadcastCall(m1)];
    var s3 := s2 + [UnsubscribeCall(c)];
    var s4 := s3 + [BroadcastCall(m2)];
    assert s1[..|s1| - 1] == calls;
    assert IsSubscribed(s1, c) && Received(s1, c) == Received(calls, c);
    assert s2[..|s2| - 1] == s1;
    assert IsSubscribed(s2, c) && Received(s2, c) == Received(calls, c) + [m1];
    assert s3[..|s3| - 1] == s2;
    assert !IsSubscribed(s3, c) && Received(s3, c) == Received(calls, c) + [m1];
    assert s4[..|s4| - 1] == s3;
    assert s4 == calls + [SubscribeCall(c), BroadcastCall(m1), UnsubscribeCall(c), BroadcastCall(m2)];
  }

  // ---------------------------------------------------------------------------------------------
  // The hub as a state machine

  /** The state of the hub: the subscriber set, and the queue each controller has been handed. */
  datatype Hub = Hub(subscribers: set<Controller>, inboxes: map<Controller, seq<Message>>)

  /** The queue recorded for `c` in `inboxes`; a controller never handed anything has an empty queue. */
  function QueueOf(inboxes: map<Controller, seq<Message>>, c: Controller): seq<Message>
  {
    if c in inboxes then inboxes[c] else []
  }

  /**
   * The queues once `m` has been enqueued on every controller in `targets`: each target's queue
   * gains `m` at its end, every other queue is unchanged, and no targets means no change.
   */
  function Delivered(inboxes: map<Controller, seq<Message>>, targets: set<Controller>, m: Message)
    : (r: map<Controller, seq<Message>>)
    ensures forall c: Controller :: QueueOf(r, c) == QueueOf(inboxes, c) + (if c in targets then [m] else [])
    ensures targets == {} ==> r == inboxes
  {
    if targets == {} then inboxes
    else map c | c in inboxes.Keys + targets :: QueueOf(inboxes, c) + (if c in targets then [m] else [])
  }

  /** A map with the keys and the queues of a delivery is that delivery. */
  lemma DeliveredByQueues(
    inboxes: map<Controller, seq<Message>>, targets: set<Controller>, m: Message, r: map<Controller, seq<Message>>)
    requires r.Keys == inboxes.Keys + targets
    requires forall c: Controller :: QueueOf(r, c) == QueueOf(inboxes, c) + (if c in targets then [m] else [])
    ensures r == Delivered(inboxes, targets, m)
  {
    var d := Delivered(inboxes, targets, m);
    forall c | c in r.Keys
      ensures r[c] == d[c]
    {
      assert QueueOf(r, c) == QueueOf(d, c);
    }
  }

  /** The effect of one call on the hub. */
  function Step(h: Hub, call: Call): Hub
  {
    match call
    case SubscribeCall(c) => Hub(h.subscribers + {c}, h.inboxes)
    case UnsubscribeCall(c) => Hub(h.subscribers - {c}, h.inboxes)
    case BroadcastCall(m) => Hub(h.subscribers, Delivered(h.inboxes, h.subscribers, m))
  }

  /** The hub after `calls`, starting from the empty hub the module creates. */
  function Replay(calls: seq<Call>): Hub
    decreases |calls|
  {
    if calls == [] then Hub({}, map[])
    else Step(Replay(calls[..|calls| - 1]), calls[|calls| - 1])
  }

  /**
   * Over any sequence of calls, a controller is subscribed exactly when the history says so, and
   * its queue equals the broadcasts issued while it was subscribed, in call order.
   */
  lemma {:induction false} ReplayMatchesHistory(calls: seq<Call>, c: Controller)
    ensures c in Replay(calls).subscribers <==> IsSubscribed(calls, c)
    ensures QueueOf(Replay(calls).inboxes, c) == Received(calls, c)
    decreases |calls|
  {
    if calls != [] {
      ReplayMatchesHistory(calls[..|calls| - 1], c);
    }
  }

  // ---------------------------------------------------------------------------------------------
  // The hub itself

  /** The subscriber set of the fan-out, and the queue each controller has been handed. */
  class PubSub {
    var subscribers: set<Controller>
    /** The queue inside each stream controller: every message `enqueue` has handed it. */
    var inboxes: map<Controller, seq<Message>>
    /** Every call made on this hub so far, in order. */
    ghost var calls: seq<Call>

    /** The queue of controller `c`; a controller never handed anything has an empty queue. */
    function Inbox(c: Controller): seq<Message>
      reads this
    {
      QueueOf(inboxes, c)
    }

    /**
     * The hub is in the state its calls so far lead to; by ReplayMatchesHistory, each
     * controller's queue then holds exactly the broadcasts issued while it was subscribed.
     */
    ghost predicate Valid()
      reads this
    {
      Hub(subscribers, inboxes) == Replay(calls)
    }

    constructor ()
      ensures Valid()
      ensures subscribers == {} && inboxes == map[] && calls == []
    {
      subscribers := {};
      inboxes := map[];
      calls := [];
    }

    /** Adds `c` to the subscriber set; adding a present controller changes nothing. */
    method Subscribe(c: Controller)
      requires Valid()
      modifies this
      ensures Valid()
      ensures subscribers == old(subscribers) + {c}
      ensures c in old(subscribers) ==> subscribers == old(subscribers)
      ensures inboxes == old(inboxes)
      ensures calls == old(calls) + [SubscribeCall(c)]
    {
      subscribers := subscribers + {c};
      calls := calls + [SubscribeCall(c)];
      assert calls[..|calls| - 1] == old(calls);
    }

    /** Removes exactly `c` from the subscriber set; a no-op when `c` is absent. */
    method Unsubscribe(c: Controller)
      requires Valid()
      modifies this
      ensures Valid()
      ensures subscribers == old(subscribers) - {c}
      ensures c !in old(subscribers) ==> subscribers == old(subscribers)
      ensures inboxes == old(inboxes)
      ensures calls == old(calls) + [UnsubscribeCall(c)]
    {
      subscribers := subscribers - {c};
      calls := calls + [UnsubscribeCall(c)];
      assert calls[..|calls| - 1] == old(calls);
    }

    /**
     * Enqueues `m` once on every subscribed controller and on no other one (see Delivered); the
     * subscriber set is unchanged, and with no subscribers nothing changes at all.
     */
    method Broadcast(m: Message)
      requires Valid()
      modifies this
      ensures Valid()
      ensures subscribers == old(subscribers)
      ensures inboxes == Delivered(old(inboxes), subscribers, m)
      ensures calls == old(calls) + [BroadcastCall(m)]
    {
      var pending := subscribers;
      ghost var done: set<Controller> := {};
      ghost var start := inboxes;
      while pending != {}
        invariant done + pending == subscribers && done !! pending
        invariant subscribers == old(subscribers) && calls == old(calls)
        invariant inboxes.Keys == start.Keys + done
        invariant forall c: Controller :: QueueOf(inboxes, c) == QueueOf(start, c) + (if c in done then [m] else [])
        decreases pending
      {
        var c :| c in pending;
        inboxes := inboxes[c := Inbox(c) + [m]];  // controller.enqueue(message)
        pending := pending - {c};
        done := done + {c};
      }
      DeliveredByQueues(start, subscribers, m, inboxes);
      calls := calls + [BroadcastCall(m)];
      assert calls[..|calls| - 1] == old(calls);
    }
  }

  // ---------------------------------------------------------------------------------------------
  // The event-stream record built from a change of the sample table

  const DATA_FIELD: string := "data: "
  const RECORD_END: string := "\n\n"

  /** The record `data: <json>` followed by a blank line (server-sent events framing). */
  function Frame(json: string): (msg: Message)
    ensures StartsWith(msg, DATA_FIELD) && EndsWith(msg, RECORD_END)
    ensures |msg| == |DATA_FIELD| + |json| + |RECORD_END|
  {
    DATA_FIELD + json + RECORD_END
  }

  /** The data carried by a one-line record, if `msg` is framed like one. */
  function Unframe(msg: Message): Option<string>
  {
    if |DATA_FIELD| + |RECORD_END| <= |msg| && StartsWith(msg, DATA_FIELD) && EndsWith(msg, RECORD_END)
    then Some(msg[|DATA_FIELD|..|msg| - |RECORD_END|])
    else None
  }

  lemma UnframeFrame(json: string)
    ensures Unframe(Frame(json)) == Some(json)
  {
    var msg := Frame(json);
    assert msg[|DATA_FIELD|..|msg| - |RECORD_END|] == json;
  }

  lemma FrameUnframe(msg: Message)
    requires Unframe(msg).Some?
    ensures Frame(Unframe(msg).value) == msg
  {
    var json := Unframe(msg).value;
    assert msg == msg[..|DATA_FIELD|] + json + msg[|msg| - |RECORD_END|..];
  }

  /**
   * When the serialized event holds no line break (JSON serialization escapes them), the only
   * line breaks of the record are its final two: one `data` line, then the blank line that
   * dispatches the event.
   */
  lemma FrameIsOneDataLine(json: string)
    requires forall i :: 0 <= i < |json| ==> json[i] != '\n' && json[i] != '\r'
    ensures forall i :: 0 <= i < |Frame(json)| - |RECORD_END| ==> Frame(json)[i] != '\n' && Frame(json)[i] != '\r'
  {
    var msg := Frame(json);
    forall i | 0 <= i < |msg| - |RECORD_END|
      ensures msg[i] != '\n' && msg[i] != '\r'
    {
      if i >= |DATA_FIELD| {
        assert msg[i] == json[i - |DATA_FIELD|];
      }
    }
  }

  /** A change notification from the change feed source. */
  datatype Payload = Payload(eventType: string, newRow: Sample, oldRow: Sample)

  /** The `{type, data}` object that is serialized into a record. */
  datatype ChangeEvent = ChangeEvent(eventType: string, data: Sample)

  /** The row a change carries: the new row of an insert or update, the old row of a delete. */
  function EventData(p: Payload): (r: Option<Sample>)
    ensures (p.eventType == "INSERT" || p.eventType == "UPDATE") ==> r == Some(p.newRow)
    ensures p.eventType == "DELETE" ==> r == Some(p.oldRow)
    ensures r == None <==> p.eventType !in {"INSERT", "UPDATE", "DELETE"}
  {
    if p.eventType == "INSERT" || p.eventType == "UPDATE" then Some(p.newRow)
    else if p.eventType == "DELETE" then Some(p.oldRow)
    else None
  }

  /**
   * The record broadcast for a change, if any: an insert, update or delete yields one
   * `data:` record whose data is the serialized `{type, data}`; any other event type yields none.
   */
  function ChangeMessage(p: Payload, stringify: ChangeEvent -> string): (r: Option<Message>)
    ensures r != None <==> p.eventType in {"INSERT", "UPDATE", "DELETE"}
    ensures r != None ==> StartsWith(r.value, DATA_FIELD) && EndsWith(r.value, RECORD_END)
    ensures r != None ==>
              EventData(p) != None && Unframe(r.value) == Some(stringify(ChangeEvent(p.eventType, EventData(p).value)))
  {
    match EventData(p)
    case None => None
    case Some(data) =>
      var json := stringify(ChangeEvent(p.eventType, data));
      UnframeFrame(json);
      Some(Frame(json))
  }

  // ---------------------------------------------------------------------------------------------
  // Module state: the shared hub and the once-only change-feed subscription

  /** A change-feed channel: its topic and the changes it listens to. */
  datatype Channel = Channel(topic: string, event: string, schema: string, table: string)

  /** The one channel the module opens: every event type on `public.biodegradation`. */
  const FEED_CHANNEL: Channel := Channel("public:biodegradation", "*", "public", "biodegradation")

  /** The module-level state of the realtime module. */
  class Feed {
    const pubsub: PubSub
    var channel: Option<Channel>
    /** How many subscriptions have been opened on the change feed source. */
    ghost var openedFeeds: nat

    /** The channel is either unset, with no feed opened, or the one channel, opened once. */
    ghost predicate Valid()
      reads this, pubsub
    {
      && pubsub.Valid()
      && (channel == None ==> openedFeeds == 0)
      && (channel != None ==> channel == Some(FEED_CHANNEL) && openedFeeds == 1)
    }

    constructor ()
      ensures Valid() && fresh(pubsub)
      ensures channel == None && pubsub.subscribers == {} && pubsub.calls == []
    {
      pubsub := new PubSub();
      channel := None;
      openedFeeds := 0;
    }

    /**
     * Opens the change-feed subscription on the first call; every later call is a no-op, so at
     * most one feed subscription ever exists.
     */
    method SetupRealtimeStream(client: Client)
      requires Valid()
      modifies this
      ensures Valid()
      ensures channel == Some(FEED_CHANNEL) && openedFeeds == 1
      ensures old(channel) != None ==> channel == old(channel) && openedFeeds == old(openedFeeds)
    {
      if channel != None {
        return;
      }
      channel := Some(FEED_CHANNEL);
      openedFeeds := openedFeeds + 1;
    }

    /**
     * The channel's callback: broadcasts the change's record when the change yields one, and
     * leaves the hub untouched otherwise.
     */
    method OnChange(p: Payload, stringify: ChangeEvent -> string)
      requires Valid() && channel != None
      modifies pubsub
      ensures Valid()
      ensures pubsub.subscribers == old(pubsub.subscribers)
      ensures ChangeMessage(p, stringify) == None ==>
                pubsub.inboxes == old(pubsub.inboxes) && pubsub.calls == old(pubsub.calls)
      ensures ChangeMessage(p, stringify) != None ==>
                var m := ChangeMessage(p, stringify).value;
                && pubsub.calls == old(pubsub.calls) + [BroadcastCall(m)]
                && forall c: Controller ::
                     pubsub.Inbox(c) == old(pubsub.Inbox(c)) + (if c in pubsub.subscribers then [m] else [])
    {
      var message := ChangeMessage(p, stringify);
      if message != None {
        pubsub.Broadcast(message.value);
      }
    }
  }
}
