/**
 * The push endpoint `GET /api/realtime`: one event stream per client, whose controller is
 * subscribed to the shared hub when the stream starts and unsubscribed when it is cancelled.
 */
module RealtimeEndpoint {
  import opened Types
  import opened Realtime

  datatype Body = Text(text: string) | EventStream

  /** An HTTP response: status, header list in order, body. */
  datatype Response = Response(status: int, headers: seq<(string, string)>, body: Body)

  /** The value of the first header named `name`, if any. */
  function Header(r: Response, name: string): Option<string>
  {
    HeaderIn(r.headers, name)
  }

  function HeaderIn(headers: seq<(string, string)>, name: string): Option<string>
  {
    if headers == [] then None
    else if headers[0].0 == name then Some(headers[0].1)
    else HeaderIn(headers[1..], name)
  }

  /** The answer when no store client was set up for the request. */
  const NOT_INITIALIZED: Response :=
    Response(500, [("Content-Type", "text/plain")], Text("Supabase client not initialized"))

  /** The answer that opens the event stream. */
  const STREAM_OPENED: Response :=
    Response(200, [("Content-Type", "text/event-stream"), ("Cache-Control", "no-cache"), ("Connection", "keep-alive")],
             EventStream)

  lemma ResponseHeaders()
    ensures NOT_INITIALIZED.status == 500 && Header(NOT_INITIALIZED, "Content-Type") == Some("text/plain")
    ensures STREAM_OPENED.status == 200 && Header(STREAM_OPENED, "Content-Type") == Some("text/event-stream")
    ensures Header(STREAM_OPENED, "Cache-Control") == Some("no-cache")
  {
  }

  /** The state of one stream: the controller it was started with, until it is cancelled. */
  class Connection {
    const pubsub: PubSub
    var controller: Option<Controller>

    constructor (pubsub: PubSub)
      ensures this.pubsub == pubsub && controller == None
    {
      this.pubsub := pubsub;
      controller := None;
    }

    /** Records the stream's controller and subscribes it. */
    method Start(c: Controller)
      requires pubsub.Valid()
      modifies this, pubsub
      ensures pubsub.Valid()
      ensures controller == Some(c)
      ensures pubsub.subscribers == old(pubsub.subscribers) + {c}
      ensures pubsub.inboxes == old(pubsub.inboxes)
      ensures pubsub.calls == old(pubsub.calls) + [SubscribeCall(c)]
    {
      controller := Some(c);
      pubsub.Subscribe(c);
    }

    /**
     * Unsubscribes the stream's controller, if it has one, and forgets it. Without one (a second
     * cancel, or a cancel before start) the hub is untouched. No other controller is removed.
     */
    method Cancel()
      requires pubsub.Valid()
      modifies this, pubsub
      ensures pubsub.Valid()
      ensures controller == None
      ensures old(controller) == None ==> unchanged(pubsub)
      ensures old(controller) != None ==>
                && pubsub.subscribers == old(pubsub.subscribers) - {old(controller).value}
                && pubsub.inboxes == old(pubsub.inboxes)
                && pubsub.calls == old(pubsub.calls) + [UnsubscribeCall(old(controller).value)]
      ensures forall d: Controller :: d in old(pubsub.subscribers) && old(controller) != Some(d) ==> d in pubsub.subscribers
    {
      if controller != None {
        pubsub.Unsubscribe(controller.value);
        controller := None;
      }
    }
  }

  /** `c` has never been subscribed: it is a new controller, as every new stream has its own. */
  ghost predicate IsNewController(pubsub: PubSub, c: Controller)
    reads pubsub
  {
    forall j :: 0 <= j < |pubsub.calls| ==> pubsub.calls[j] != SubscribeCall(c)
  }

  /**
   * Handles one request. Without a store client in `locals` it answers 500 in plain text and
   * touches nothing. Otherwise it builds the stream, whose start runs at once with the stream's
   * own new controller `c`, and answers 200 with an event stream.
   */
  method Get(locals: Locals, pubsub: PubSub, c: Controller) returns (response: Response, connection: Connection?)
    requires pubsub.Valid()
    requires IsNewController(pubsub, c)
    modifies pubsub
    ensures pubsub.Valid()
    ensures locals.supabase == None ==> response == NOT_INITIALIZED && connection == null && unchanged(pubsub)
    ensures locals.supabase != None ==>
              && response == STREAM_OPENED
              && connection != null && fresh(connection)
              && connection.pubsub == pubsub && connection.controller == Some(c)
              && pubsub.subscribers == old(pubsub.subscribers) + {c}
              && pubsub.inboxes == old(pubsub.inboxes)
              && pubsub.calls == old(pubsub.calls) + [SubscribeCall(c)]
  {
    if locals.supabase == None {
      return NOT_INITIALIZED, null;
    }
    connection := new Connection(pubsub);
    connection.Start(c);
    response := STREAM_OPENED;
  }

  /**
   * Two clients open streams and the first one goes away: the second stream's controller is
   * still subscribed and the first one's is not, so cancelling one connection never cuts off
   * another.
   */
  method TwoStreams(locals: Locals, pubsub: PubSub, c1: Controller, c2: Controller)
    returns (first: Connection?, second: Connection?)
    requires pubsub.Valid() && locals.supabase != None
    requires IsNewController(pubsub, c1) && IsNewController(pubsub, c2) && c1 != c2
    modifies pubsub
    ensures pubsub.Valid()
    ensures first != null && second != null && first != second
    ensures first.controller == None && c1 !in pubsub.subscribers
    ensures second.controller == Some(c2) && c2 in pubsub.subscribers
    ensures pubsub.subscribers == old(pubsub.subscribers) + {c2}
  {
    var r1, r2;
    r1, first := Get(locals, pubsub, c1);
    ghost var before := pubsub.calls;
    r2, second := Get(locals, pubsub, c2);
    assert pubsub.calls == before + [SubscribeCall(c2)];
    first.Cancel();
    assert c1 !in old(pubsub.subscribers) by {
      SubscribedIffNotUnsubscribedSince(old(pubsub.calls), c1);
      ReplayMatchesHistory(old(pubsub.calls), c1);
    }
  }
}
