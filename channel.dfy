/** The request/response correlation channels of quant/util/channel.py. A registry
    keyed by request id (or by a name) hands out channels; a channel collects data
    for one request, passes each piece to its callbacks, keeps the first piece as its
    result, and is closed by the side that completes the request. Callbacks are
    identifiers and their effect is a log of deliveries; the blocking wait of `call`
    is an abstract outcome. */
module Channel {
  import opened Base
  import opened Markets
  import TimeUtil

  /** A channel key: a numeric request id or a fixed name such as 'scannerParams'. */
  datatype Key = Id(n: int) | Name(name: string)

  /** What is delivered on a channel: a bar, a text payload, or a flushed batch. */
  datatype Data = Bar(bar: TickBar) | Text(text: string) | Batch(items: seq<Data>)

  /** A registered callback, identified by a number. */
  type CallbackId = int

  /** How the wait of a blocking `call` went: the data the server side passed to
      `on_data` while the caller polled, in order, and then either the completing side
      closed the channel (with or without final data) or the allowed time ran out. */
  datatype WaitOutcome = Closed(arrived: seq<Data>, final: Option<Data>) | TimedOut(arrived: seq<Data>)
  {
    /** Everything `on_data` received during the wait, the final data of a close last. */
    function Received(): (r: seq<Data>)
      ensures |r| == |arrived| + (if Closed? && final.Some? then 1 else 0)
      ensures r[..|arrived|] == arrived
      ensures Closed? && final.Some? ==> r[|arrived|] == final.value
    {
      if Closed? && final.Some? then arrived + [final.value] else arrived
    }
  }

  const DefaultBaseReqId := 1000

  /** The calls `on_data(d)` makes: every callback, in registration order, with `d`. */
  function Deliver(callbacks: seq<CallbackId>, d: Data): (r: seq<(CallbackId, Data)>)
    ensures |r| == |callbacks|
    ensures forall i :: 0 <= i < |r| ==> r[i] == (callbacks[i], d)
  {
    if callbacks == [] then [] else [(callbacks[0], d)] + Deliver(callbacks[1..], d)
  }

  /** The calls a sequence of `on_data` calls makes, one data item after another. */
  function DeliverEach(callbacks: seq<CallbackId>, ds: seq<Data>): (r: seq<(CallbackId, Data)>)
    ensures ds == [] ==> r == []
    ensures |r| == |callbacks| * |ds|
    decreases |ds|
  {
    if ds == [] then []
    else
      var rest := DeliverEach(callbacks, ds[1..]);
      assert |callbacks| * |ds| == |callbacks| + |callbacks| * (|ds| - 1);
      Deliver(callbacks, ds[0]) + rest
  }

  /** One more data item adds its own deliveries at the end. */
  lemma {:induction false} DeliverEachSnoc(callbacks: seq<CallbackId>, ds: seq<Data>, d: Data)
    ensures DeliverEach(callbacks, ds + [d]) == DeliverEach(callbacks, ds) + Deliver(callbacks, d)
    decreases |ds|
  {
    if ds == [] {
      assert ds + [d] == [d];
      assert [d][1..] == [];
    } else {
      assert (ds + [d])[0] == ds[0] && (ds + [d])[1..] == ds[1..] + [d];
      DeliverEachSnoc(callbacks, ds[1..], d);
      var h := Deliver(callbacks, ds[0]);
      assert h + (DeliverEach(callbacks, ds[1..]) + Deliver(callbacks, d))
          == (h + DeliverEach(callbacks, ds[1..])) + Deliver(callbacks, d);
    }
  }

  /** The result a channel holds after receiving `ds`, starting from `r`: each `on_data`
      keeps the result already set and otherwise takes its data. */
  function Settled(r: Option<Data>, ds: seq<Data>): Option<Data>
    decreases |ds|
  {
    if ds == [] then r else Settled(if r.None? then Some(ds[0]) else r, ds[1..])
  }

  /** The settled result is the first one: the result already held, otherwise the first
      data received, otherwise none. */
  lemma {:induction false} SettledIsFirst(r: Option<Data>, ds: seq<Data>)
    ensures Settled(r, ds) == (if r.Some? then r else if ds == [] then None else Some(ds[0]))
    decreases |ds|
  {
    if ds != [] {
      SettledIsFirst(if r.None? then Some(ds[0]) else r, ds[1..]);
    }
  }

  lemma {:induction false} SettledSnoc(r: Option<Data>, ds: seq<Data>, d: Data)
    ensures Settled(r, ds + [d]) == (if Settled(r, ds).None? then Some(d) else Settled(r, ds))
    decreases |ds|
  {
    if ds == [] {
      assert ds + [d] == [d];
      assert [d][1..] == [];
    } else {
      assert (ds + [d])[0] == ds[0] && (ds + [d])[1..] == ds[1..] + [d];
      SettledSnoc(if r.None? then Some(ds[0]) else r, ds[1..], d);
    }
  }

  /** One `on_data` of the receiving loop, on the deliveries and result it keeps. */
  lemma {:induction false} ReceiveStep(cb: seq<CallbackId>, seen: seq<Data>, d: Data, d0: seq<(CallbackId, Data)>, r0: Option<Data>)
    ensures (d0 + DeliverEach(cb, seen)) + Deliver(cb, d) == d0 + DeliverEach(cb, seen + [d])
    ensures (if Settled(r0, seen).None? then Some(d) else Settled(r0, seen)) == Settled(r0, seen + [d])
  {
    DeliverEachSnoc(cb, seen, d);
    SettledSnoc(r0, seen, d);
    var x, y := DeliverEach(cb, seen), Deliver(cb, d);
    assert (d0 + x) + y == d0 + (x + y);
  }

  /** Delivering to more callbacks extends the deliveries to the earlier ones. */
  lemma {:induction false} DeliverAppend(a: seq<CallbackId>, b: seq<CallbackId>, d: Data)
    ensures Deliver(a + b, d) == Deliver(a, d) + Deliver(b, d)
  {
    var l, r := Deliver(a + b, d), Deliver(a, d) + Deliver(b, d);
    assert |l| == |r|;
    forall i | 0 <= i < |l| ensures l[i] == r[i] {
      if i < |a| {
        assert (a + b)[i] == a[i];
      } else {
        assert (a + b)[i] == b[i - |a|];
      }
    }
  }

  lemma DeliverSnoc(callbacks: seq<CallbackId>, i: nat, d: Data)
    requires i < |callbacks|
    ensures Deliver(callbacks[..i + 1], d) == Deliver(callbacks[..i], d) + [(callbacks[i], d)]
  {
    assert callbacks[..i + 1] == callbacks[..i] + [callbacks[i]];
    DeliverAppend(callbacks[..i], [callbacks[i]], d);
  }

  /** The loop of `on_data`: each callback in turn is called with `d`, after the calls
      already made in `log`. */
  method CallEach(callbacks: seq<CallbackId>, d: Data, log: seq<(CallbackId, Data)>)
    returns (out: seq<(CallbackId, Data)>)
    ensures out == log + Deliver(callbacks, d)
  {
    out := log;
    var i := 0;
    while i < |callbacks|
      invariant i <= |callbacks|
      invariant out == log + Deliver(callbacks[..i], d)
      decreases |callbacks| - i
    {
      DeliverSnoc(callbacks, i, d);
      assert (log + Deliver(callbacks[..i], d)) + [(callbacks[i], d)]
          == log + (Deliver(callbacks[..i], d) + [(callbacks[i], d)]);
      out := out + [(callbacks[i], d)];
      i := i + 1;
    }
    assert callbacks[..i] == callbacks;
  }

  /** The registry of open channels and the counter for fresh request ids. */
  class CallChannels {
    var channels: map<Key, CallChannel>
    var nextReqId: int
    const base: int
    /** The request ids handed out by `next_channel`, oldest first. */
    ghost var issued: seq<int>

    /** Every channel sits under its own key and belongs to this registry; the ids handed
        out so far strictly increase, start at the base and lie below the counter. */
    ghost predicate Valid()
      reads this
    {
      && (forall k :: k in channels ==> channels[k].key == k && channels[k].registry == this)
      && base <= nextReqId
      && (forall i, j :: 0 <= i < j < |issued| ==> issued[i] < issued[j])
      && (forall i :: 0 <= i < |issued| ==> base <= issued[i] < nextReqId)
    }

    /** `CallChannels(base_req_id)`: no channels, the counter at the base. */
    constructor (base: int)
      ensures Valid()
      ensures channels == map[] && nextReqId == base && this.base == base && issued == []
    {
      channels := map[];
      nextReqId := base;
      this.base := base;
      issued := [];
    }

    /** `channel_for(key, metadata, result)`: the open channel under `key`, as registered
        (the metadata and result given are then ignored), or a new one registered under it. */
    method ChannelFor(key: Key, metadata: Option<string>, result: Option<Data>) returns (c: CallChannel)
      requires Valid()
      modifies this
      ensures Valid()
      ensures c.key == key && c.registry == this
      ensures key in old(channels) ==> c == old(channels)[key] && channels == old(channels)
      ensures key !in old(channels) ==>
        && fresh(c) && channels == old(channels)[key := c]
        && c.metadata == metadata && c.result == result && c.waiter == null
        && c.callbacks == [] && c.buffer == [] && c.deliveries == []
      ensures nextReqId == old(nextReqId) && issued == old(issued)
    {
      if key !in channels {
        c := new CallChannel(this, key, metadata, result);
        channels := channels[key := c];
      } else {
        c := channels[key];
      }
    }

    /** `next_channel(metadata, result)`: the channel for the current counter value, after
        which the counter moves on; the new id exceeds every id handed out before. */
    method NextChannel(metadata: Option<string>, result: Option<Data>) returns (c: CallChannel)
      requires Valid()
      modifies this
      ensures Valid()
      ensures c.key == Id(old(nextReqId)) && c.registry == this
      ensures nextReqId == old(nextReqId) + 1
      ensures issued == old(issued) + [old(nextReqId)]
      ensures forall i :: 0 <= i < |old(issued)| ==> old(issued)[i] < c.key.n
      ensures channels == old(channels)[c.key := c]
      ensures Id(old(nextReqId)) in old(channels) ==> c == old(channels)[c.key]
      ensures Id(old(nextReqId)) !in old(channels) ==>
        && fresh(c) && c.metadata == metadata && c.result == result && c.waiter == null
        && c.callbacks == [] && c.buffer == [] && c.deliveries == []
    {
      c := ChannelFor(Id(nextReqId), metadata, result);
      issued := issued + [nextReqId];
      nextReqId := nextReqId + 1;
    }

    /** `close(key)`: unregister and return the channel under `key`; KeyError when no
        channel is registered under it, so closing twice fails the second time. */
    method Close(key: Key) returns (r: Result<CallChannel>)
      requires Valid()
      modifies this
      ensures Valid()
      ensures r.Ok? <==> key in old(channels)
      ensures r.Ok? ==> r.value == old(channels)[key] && channels == old(channels) - {key}
      ensures r.Err? ==> r.error == KeyError && channels == old(channels)
      ensures nextReqId == old(nextReqId) && issued == old(issued)
    {
      if key !in channels {
        return Err(KeyError);
      }
      r := Ok(channels[key]);
      channels := channels - {key};
    }
  }

  /** One channel: its key and metadata, the first data received, the waiter of a
      blocking call, its callbacks, the buffer of data not yet flushed, and the log of
      callback deliveries. */
  class CallChannel {
    const key: Key
    var metadata: Option<string>
    var result: Option<Data>
    var waiter: TimeUtil.Waiter?
    var callbacks: seq<CallbackId>
    var buffer: seq<Data>
    const registry: CallChannels
    var deliveries: seq<(CallbackId, Data)>

    constructor (registry: CallChannels, key: Key, metadata: Option<string>, result: Option<Data>)
      ensures this.registry == registry && this.key == key
      ensures this.metadata == metadata && this.result == result && waiter == null
      ensures callbacks == [] && buffer == [] && deliveries == []
    {
      this.registry := registry;
      this.key := key;
      this.metadata := metadata;
      this.result := result;
      waiter := null;
      callbacks := [];
      buffer := [];
      deliveries := [];
    }

    /** `add_callback(cb)`: it is called last from now on. */
    method AddCallback(cb: CallbackId)
      modifies this
      ensures callbacks == old(callbacks) + [cb]
      ensures metadata == old(metadata) && result == old(result) && waiter == old(waiter)
      ensures buffer == old(buffer) && deliveries == old(deliveries)
    {
      callbacks := callbacks + [cb];
    }

    /** `on_data(d)`: pass `d` to every callback in registration order, then keep it as
        the result unless a result is already set. */
    method OnData(d: Data)
      modifies this
      ensures deliveries == old(deliveries) + Deliver(callbacks, d)
      ensures result == (if old(result).None? then Some(d) else old(result))
      ensures callbacks == old(callbacks) && metadata == old(metadata) && waiter == old(waiter)
      ensures buffer == old(buffer)
    {
      deliveries := CallEach(callbacks, d, deliveries);
      if result.None? {
        result := Some(d);
      }
    }

    /** `buffer(d)`: hold `d` back until the next flush. */
    method Buffer(d: Data)
      modifies this
      ensures buffer == old(buffer) + [d]
      ensures callbacks == old(callbacks) && metadata == old(metadata) && waiter == old(waiter)
      ensures result == old(result) && deliveries == old(deliveries)
    {
      buffer := buffer + [d];
    }

    /** `flush()`: deliver everything buffered as one batch and empty the buffer. */
    method Flush()
      modifies this
      ensures buffer == []
      ensures deliveries == old(deliveries) + Deliver(callbacks, Batch(old(buffer)))
      ensures result == (if old(result).None? then Some(Batch(old(buffer))) else old(result))
      ensures callbacks == old(callbacks) && metadata == old(metadata) && waiter == old(waiter)
    {
      var batch := buffer;
      buffer := [];
      OnData(Batch(batch));
    }

    /** `close(data)`: deliver the final data if there is any, release a waiting call if
        there is one, and unregister the key; KeyError when the key is no longer
        registered (the data is delivered and the waiter released first). */
    method Close(final: Option<Data>) returns (r: Outcome)
      requires registry.Valid()
      modifies this, waiter, registry
      ensures registry.Valid()
      ensures final.Some? ==>
        && deliveries == old(deliveries) + Deliver(callbacks, final.value)
        && result == (if old(result).None? then final else old(result))
      ensures final.None? ==> deliveries == old(deliveries) && result == old(result)
      ensures waiter == old(waiter) && (waiter != null ==> !waiter.waiting)
      ensures r.Pass? <==> key in old(registry.channels)
      ensures r.Fail? ==> r.error == KeyError
      ensures registry.channels == old(registry.channels) - {key}
      ensures registry.nextReqId == old(registry.nextReqId) && registry.issued == old(registry.issued)
      ensures callbacks == old(callbacks) && metadata == old(metadata) && buffer == old(buffer)
    {
      if final.Some? {
        OnData(final.value);
      }
      if waiter != null {
        waiter.Done();
      }
      var popped := registry.Close(key);
      r := if popped.Ok? then Pass else Fail(popped.error);
    }

    /** The data the server side passes to `on_data` while a call waits, in order. */
    method Receive(ds: seq<Data>)
      modifies this
      ensures deliveries == old(deliveries) + DeliverEach(callbacks, ds)
      ensures result == Settled(old(result), ds)
      ensures callbacks == old(callbacks) && metadata == old(metadata) && waiter == old(waiter)
      ensures buffer == old(buffer)
    {
      ghost var d0, r0, cb := deliveries, result, callbacks;
      ghost var seen: seq<Data> := [];
      var i := 0;
      while i < |ds|
        invariant i <= |ds| && seen == ds[..i]
        invariant deliveries == d0 + DeliverEach(cb, seen) && result == Settled(r0, seen)
        invariant callbacks == cb && metadata == old(metadata) && waiter == old(waiter)
        invariant buffer == old(buffer)
        decreases |ds| - i
      {
        ReceiveStep(cb, seen, ds[i], d0, r0);
        OnData(ds[i]);
        assert ds[..i + 1] == seen + [ds[i]];
        seen := seen + [ds[i]];
        i := i + 1;
      }
      assert ds[..i] == ds;
    }

    /** The wait of a blocking call: the data arriving while the caller polls, then the
        close of the completing side if it comes before the time runs out. */
    method Await(wait: WaitOutcome)
      requires registry.Valid() && waiter != null
      modifies this, waiter, registry
      ensures registry.Valid()
      ensures deliveries == old(deliveries) + DeliverEach(callbacks, wait.Received())
      ensures result == Settled(old(result), wait.Received())
      ensures waiter == old(waiter) && waiter.waiting == (old(waiter.waiting) && wait.TimedOut?)
      ensures registry.channels == if wait.Closed? then old(registry.channels) - {key} else old(registry.channels)
      ensures registry.nextReqId == old(registry.nextReqId) && registry.issued == old(registry.issued)
      ensures callbacks == old(callbacks) && metadata == old(metadata) && buffer == old(buffer)
    {
      Receive(wait.arrived);
      if wait.Closed? {
        var closed := Close(wait.final);
        if wait.final.Some? {
          ReceiveStep(callbacks, wait.arrived, wait.final.value, old(deliveries), old(result));
        }
      }
    }

    /** `call(action, max_wait)` at clock reading `now`. With max_wait 0 the action runs
        without a waiter and the result is returned at once. Otherwise a new waiter is
        armed and the action runs; while the caller polls, the server side delivers data,
        and the wait ends when the completing side closes the channel or when the time
        runs out, which only logs a warning. Either way the return value is the channel's
        result at that point: the first data received, and after a timeout whatever was
        received so far. The action itself (a request to the server) is the caller's. */
    method Call(maxWait: real, now: real, wait: WaitOutcome) returns (r: Option<Data>, warned: bool)
      requires registry.Valid()
      modifies this, registry
      ensures registry.Valid()
      ensures r == result
      ensures maxWait == 0.0 ==>
        && !warned && waiter == old(waiter) && result == old(result) && deliveries == old(deliveries)
        && registry.channels == old(registry.channels)
      ensures maxWait != 0.0 ==>
        && fresh(waiter) && waiter.maxWait == maxWait && waiter.start == now
        && (warned <==> wait.TimedOut?) && (waiter.waiting <==> wait.TimedOut?)
        && deliveries == old(deliveries) + DeliverEach(callbacks, wait.Received())
        && result == Settled(old(result), wait.Received())
      ensures maxWait != 0.0 && wait.TimedOut? ==> registry.channels == old(registry.channels)
      ensures maxWait != 0.0 && wait.Closed? ==> registry.channels == old(registry.channels) - {key}
      ensures registry.nextReqId == old(registry.nextReqId) && registry.issued == old(registry.issued)
      ensures callbacks == old(callbacks) && metadata == old(metadata) && buffer == old(buffer)
    {
      warned := false;
      if maxWait != 0.0 {
        var w := new TimeUtil.Waiter(maxWait, now);
        waiter := w;
        Await(wait);
        warned := waiter.waiting;
      }
      r := result;
    }
  }
}
