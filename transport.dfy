/** The realtime channel both hooks ride on, as an abstract object. Its behaviour belongs to
    the hosted realtime service: the model keeps only the calls the hooks make on it, in order,
    and takes every answer the service gives (subscription statuses, broadcast replies) as an
    input of the handler that receives it. */
module Transport {

  /** The statuses the realtime client reports to a channel's `subscribe` callback. */
  datatype Status = Subscribed | ChannelError | TimedOut | Closed

  /** How a broadcast `send` settles: it resolves to `'ok'`, resolves to some other
      response, or rejects. */
  datatype SendReply = Ok | OtherReply(response: string) | Threw

  /** One call made on a channel. */
  datatype Call<P> = SubscribeCall | TrackCall(state: P) | SendCall(payload: P) | UnsubscribeCall

  class Channel<P> {
    /** The topic the channel was opened on, e.g. `room:main` or `chat:main`. */
    const topic: string
    /** Every call made on this channel so far, oldest first. */
    var calls: seq<Call<P>>

    constructor (topic: string)
      ensures this.topic == topic && calls == []
    {
      this.topic := topic;
      calls := [];
    }

    method Subscribe()
      modifies this
      ensures calls == old(calls) + [SubscribeCall]
    {
      calls := calls + [SubscribeCall];
    }

    /** Publishes a whole presence record. `trackPresence` and the cursor callback catch and
        log a rejected `track`; the subscribe callback awaits its `track` without a catch, but
        nothing follows it there. In every case the outcome changes no hook state, so it is
        not returned. */
    method Track(state: P)
      modifies this
      ensures calls == old(calls) + [TrackCall(state)]
    {
      calls := calls + [TrackCall(state)];
    }

    /** Broadcasts `payload`; the service's reply is the input `reply`. */
    method Send(payload: P, reply: SendReply) returns (r: SendReply)
      modifies this
      ensures calls == old(calls) + [SendCall(payload)]
      ensures r == reply
    {
      calls := calls + [SendCall(payload)];
      r := reply;
    }

    method Unsubscribe()
      modifies this
      ensures calls == old(calls) + [UnsubscribeCall]
    {
      calls := calls + [UnsubscribeCall];
    }
  }
}
