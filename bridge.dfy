/** The host side of the bridge to the shared hidden WebView
    (src/context/WebViewContext.tsx): the ready flag, the connectivity flag, the
    queue of messages sent before the WebView is ready, the handler registry,
    the restart key, and the chunked sender of `extractTextFromPDF`.

    Script injection is modelled as appending the message to `injected`,
    handler invocations as entries of `delivered`, and alerts as entries of
    `alerts`. React's state setters and effects run as explicit sequential
    steps; the NetInfo subscription and the WebView ref become the inputs
    `SetConnectivity` and `SetMounted`. */
module Bridge {
  import opened Common
  import opened Messages
  import opened Routing
  import opened PdfTransfer

  // ------------------------------------------------------------------
  // The handler registry (a `Map`: insertion-ordered, keyed by id)
  // ------------------------------------------------------------------

  predicate Distinct(s: seq<string>)
  {
    forall i, j :: 0 <= i < j < |s| ==> s[i] != s[j]
  }

  /** The registry's iteration order and its entries. */
  datatype Registry = Registry(order: seq<string>, handlers: map<string, Handler>)

  /** Each id occurs once in the iteration order, and exactly the ids with an
      entry occur there. */
  ghost predicate RegistryValid(r: Registry)
  {
    Distinct(r.order) && forall id :: id in r.order <==> id in r.handlers
  }

  /** `order` without `id`, the other ids keeping their relative order. */
  function Remove(order: seq<string>, id: string): (rest: seq<string>)
    ensures forall x :: x in rest <==> x in order && x != id
    ensures Distinct(order) ==> Distinct(rest)
    ensures id !in order ==> rest == order
    decreases |order|
  {
    if order == [] then []
    else
      var init, last := order[..|order| - 1], order[|order| - 1];
      assert order == init + [last];
      if last == id then Remove(init, id)
      else
        DistinctSnoc(init, last);
        DistinctSnoc(Remove(init, id), last);
        Remove(init, id) + [last]
  }

  /** Appending an id that is not yet present keeps a sequence duplicate-free;
      and a duplicate-free sequence's prefix and last element are apart. */
  lemma DistinctSnoc(s: seq<string>, x: string)
    ensures Distinct(s) && x !in s ==> Distinct(s + [x])
    ensures Distinct(s + [x]) ==> Distinct(s) && x !in s
  {
    var t := s + [x];
    if Distinct(t) {
      assert forall i :: 0 <= i < |s| ==> t[i] == s[i];
      forall i | 0 <= i < |s| ensures s[i] != x {
        assert t[i] == s[i] && t[|s|] == x;
      }
    }
  }

  /** Removing an id that sits at position `p` of a duplicate-free order
      closes the gap and moves nothing else. */
  lemma {:induction false} RemoveAt(order: seq<string>, id: string, p: nat)
    requires Distinct(order) && p < |order| && order[p] == id
    ensures Remove(order, id) == order[..p] + order[p + 1..]
    decreases |order|
  {
    var init, last := order[..|order| - 1], order[|order| - 1];
    if p == |order| - 1 {
      assert id !in init;
      assert order[..p] == init;
    } else {
      assert init[p] == id;
      assert Distinct(init);
      RemoveAt(init, id, p);
      assert last != id;
      assert order[p + 1..] == init[p + 1..] + [last];
      assert order[..p] == init[..p];
    }
  }

  /** `handlersRef.current.set(id, handler)`: a new id goes to the end of the
      iteration order, an existing id keeps its place and gets the new
      handler. */
  function Register(r: Registry, id: string, h: Handler): (r': Registry)
    ensures id in r'.handlers && r'.handlers[id] == h
    ensures forall other :: other != id ==>
      (other in r'.handlers <==> other in r.handlers) &&
      (other in r.handlers ==> r'.handlers[other] == r.handlers[other])
    ensures RegistryValid(r) && id in r.order ==> r'.order == r.order
    ensures RegistryValid(r) && id !in r.order ==> r'.order == r.order + [id]
    ensures RegistryValid(r) ==> RegistryValid(r')
  {
    Registry(if id in r.handlers then r.order else r.order + [id], r.handlers[id := h])
  }

  /** `handlersRef.current.delete(id)`: that id is gone and every other entry,
      and its place in the order, stays. */
  function Unregister(r: Registry, id: string): (r': Registry)
    ensures id !in r'.handlers
    ensures forall other :: other != id ==>
      (other in r'.handlers <==> other in r.handlers) &&
      (other in r.handlers ==> r'.handlers[other] == r.handlers[other])
    ensures RegistryValid(r) ==> RegistryValid(r')
    ensures RegistryValid(r) && id !in r.handlers ==> r' == r
  {
    Registry(Remove(r.order, id), r.handlers - {id})
  }

  /** Unregistering right after registering a fresh id restores the registry. */
  lemma RegisterUnregister(r: Registry, id: string, h: Handler)
    requires RegistryValid(r) && id !in r.handlers
    ensures Unregister(Register(r, id, h), id) == r
  {
    var r1 := Register(r, id, h);
    assert r1.order == r.order + [id];
    assert (r.order + [id])[..|r.order|] == r.order;
    assert r1.handlers - {id} == r.handlers;
  }

  // ------------------------------------------------------------------
  // Delivery of an incoming message
  // ------------------------------------------------------------------

  /** One handler invocation and the callback calls it made. */
  datatype Delivery = Delivery(handlerId: string, calls: seq<Callback>)

  /** `handlersRef.current.forEach(handler => handler(data))`. */
  function Deliveries(order: seq<string>, handlers: map<string, Handler>, m: Incoming): (ds: seq<Delivery>)
    requires forall id :: id in order ==> id in handlers
    ensures |ds| == |order|
    ensures forall i :: 0 <= i < |ds| ==>
      ds[i].handlerId == order[i] && ds[i].calls == Route(handlers[order[i]], m)
    decreases |order|
  {
    if order == [] then []
    else
      var init, last := order[..|order| - 1], order[|order| - 1];
      Deliveries(init, handlers, m) + [Delivery(last, Route(handlers[last], m))]
  }

  /** Every registered handler is invoked exactly once per message, and
      nothing else is invoked. */
  lemma DeliveredOnceEach(r: Registry, m: Incoming, id: string)
    requires RegistryValid(r)
    ensures var ds := Deliveries(r.order, r.handlers, m);
      (id in r.handlers ==> exists i :: 0 <= i < |ds| && ds[i].handlerId == id) &&
      (forall i, j :: 0 <= i < |ds| && 0 <= j < |ds| && ds[i].handlerId == id && ds[j].handlerId == id ==> i == j) &&
      (forall i :: 0 <= i < |ds| ==> ds[i].handlerId in r.handlers)
  {
    var ds := Deliveries(r.order, r.handlers, m);
    if id in r.handlers {
      var i :| 0 <= i < |r.order| && r.order[i] == id;
      assert ds[i].handlerId == id;
    }
  }

  // ------------------------------------------------------------------
  // The provider's state
  // ------------------------------------------------------------------

  /** `isConnected`: `true`, `false` or `null`. */
  datatype Connectivity = Connected | Disconnected | Unknown

  datatype Alert =
    | NoInternet        // 'No Internet Connection'
    | GeneratorError    // 'Generator Error'
    | GeneratorCrashed  // 'Generator Crashed', whose OK button restarts

  function AlertsOf(n: nat, a: Alert): (alerts: seq<Alert>)
    ensures |alerts| == n && forall i :: 0 <= i < n ==> alerts[i] == a
  {
    seq(n, _ => a)
  }

  /** What `sendMessage` does with a message: alert and drop it (offline),
      inject it (ready with the ref set) or queue it. */
  datatype SendMode = Dropped | Direct | Queued

  function ModeOf(connectivity: Connectivity, mounted: bool, isReady: bool): (mode: SendMode)
    ensures mode == Dropped <==> connectivity != Connected
    ensures mode == Direct <==> connectivity == Connected && mounted && isReady
  {
    if connectivity != Connected then Dropped
    else if mounted && isReady then Direct
    else Queued
  }

  /** The parts of the provider's state that sending touches. */
  datatype Outbox = Outbox(queue: seq<Outgoing>, injected: seq<Outgoing>, alerts: seq<Alert>)

  /** Sending `msgs` one after another in a fixed mode. */
  function SendAll(o: Outbox, mode: SendMode, msgs: seq<Outgoing>): (o': Outbox)
  {
    match mode
    case Dropped => o.(alerts := o.alerts + AlertsOf(|msgs|, NoInternet))
    case Direct => o.(injected := o.injected + msgs)
    case Queued => o.(queue := o.queue + msgs)
  }

  /** Offline nothing is queued or injected; online no alert is shown, and
      each message lands once, in order, at the end of exactly one of the
      queue and the injection log. */
  lemma SendAllEffects(o: Outbox, mode: SendMode, msgs: seq<Outgoing>)
    ensures var o' := SendAll(o, mode, msgs);
      && (mode == Dropped ==>
            o'.queue == o.queue && o'.injected == o.injected &&
            |o'.alerts| == |o.alerts| + |msgs| && o'.alerts[..|o.alerts|] == o.alerts)
      && (mode != Dropped ==> o'.alerts == o.alerts)
      && (mode == Direct ==> o'.queue == o.queue && o'.injected[|o.injected|..] == msgs)
      && (mode == Queued ==> o'.injected == o.injected && o'.queue[|o.queue|..] == msgs)
  {
    var o' := SendAll(o, mode, msgs);
    if mode == Dropped {
      assert o'.alerts[..|o.alerts|] == o.alerts;
    }
  }

  /** Sending two lists one after the other is sending their concatenation. */
  lemma SendAllAppend(o: Outbox, mode: SendMode, a: seq<Outgoing>, b: seq<Outgoing>)
    ensures SendAll(SendAll(o, mode, a), mode, b) == SendAll(o, mode, a + b)
  {
    match mode
    case Dropped =>
      assert AlertsOf(|a|, NoInternet) + AlertsOf(|b|, NoInternet) == AlertsOf(|a + b|, NoInternet);
    case Direct =>
      assert (o.injected + a) + b == o.injected + (a + b);
    case Queued =>
      assert (o.queue + a) + b == o.queue + (a + b);
  }

  class Host {
    var isReady: bool
    var connectivity: Connectivity
    /** Whether `webViewRef.current` is set. */
    var mounted: bool
    var webViewKey: nat
    var queue: seq<Outgoing>
    /** Messages injected into the WebView, in order. */
    var injected: seq<Outgoing>
    var handlerOrder: seq<string>
    var handlers: map<string, Handler>
    /** Handler invocations, in order. */
    var delivered: seq<Delivery>
    var alerts: seq<Alert>
    /** 'Generator Crashed' alerts still waiting for their OK. */
    var crashPrompts: nat

    function Handlers(): Registry
      reads this
    {
      Registry(handlerOrder, handlers)
    }

    ghost predicate Valid()
      reads this
    {
      RegistryValid(Handlers())
    }

    function Box(): Outbox
      reads this
    {
      Outbox(queue, injected, alerts)
    }

    /** `!isConnected` (false and null alike) drops; `webViewRef.current &&
        isReady` injects. */
    function Mode(): SendMode
      reads this
    {
      ModeOf(connectivity, mounted, isReady)
    }

    constructor()
      ensures !isReady && connectivity == Connected && mounted && webViewKey == 0
      ensures queue == [] && injected == [] && Handlers() == Registry([], map[])
      ensures delivered == [] && alerts == [] && crashPrompts == 0
      ensures Valid()
    {
      isReady := false;
      connectivity := Connected;
      mounted := true;
      webViewKey := 0;
      queue := [];
      injected := [];
      handlerOrder := [];
      handlers := map[];
      delivered := [];
      alerts := [];
      crashPrompts := 0;
    }

    /** The NetInfo listener. */
    method SetConnectivity(c: Connectivity)
      modifies this`connectivity
      ensures connectivity == c
    {
      connectivity := c;
    }

    /** The WebView ref being attached or detached. */
    method SetMounted(b: bool)
      modifies this`mounted
      ensures mounted == b
    {
      mounted := b;
    }

    /** `sendMessage`: offline, an alert and nothing else; ready with a
        mounted WebView, injected at once; otherwise appended to the queue. */
    method Send(m: Outgoing)
      modifies this`queue, this`injected, this`alerts
      ensures Box() == SendAll(old(Box()), Mode(), [m])
    {
      if connectivity != Connected {
        alerts := alerts + [NoInternet];
      } else if mounted && isReady {
        injected := injected + [m];
      } else {
        queue := queue + [m];
      }
    }

    /** The queue-flush effect: every queued message in FIFO order (injected
        only while the ref is set), then the queue is emptied. */
    method FlushQueue()
      modifies this`queue, this`injected
      ensures injected == old(injected) + (if mounted then old(queue) else [])
      ensures queue == []
    {
      var pending := queue;
      var i := 0;
      while i < |pending|
        invariant 0 <= i <= |pending|
        invariant injected == old(injected) + (if mounted then pending[..i] else [])
      {
        if mounted {
          assert pending[..i + 1] == pending[..i] + [pending[i]];
          injected := injected + [pending[i]];
        }
        i := i + 1;
      }
      assert pending[..i] == pending;
      queue := [];
    }

    /** The unregister function returned by `registerHandler`. */
    method UnregisterHandler(id: string)
      requires Valid()
      modifies this`handlerOrder, this`handlers
      ensures Handlers() == Unregister(old(Handlers()), id)
      ensures Valid()
    {
      var r := Unregister(Handlers(), id);
      handlerOrder, handlers := r.order, r.handlers;
    }

    /** `registerHandler(id, handler)`. */
    method RegisterHandler(id: string, h: Handler)
      requires Valid()
      modifies this`handlerOrder, this`handlers
      ensures Handlers() == Register(old(Handlers()), id, h)
      ensures Valid()
    {
      var r := Register(Handlers(), id, h);
      handlerOrder, handlers := r.order, r.handlers;
    }

    /** `restartWebView`: the queue is dropped, readiness is lost and the key
        that remounts the WebView moves on by one. */
    method Restart()
      modifies this`queue, this`isReady, this`webViewKey
      ensures queue == [] && !isReady && webViewKey == old(webViewKey) + 1
    {
      queue := [];
      isReady := false;
      webViewKey := webViewKey + 1;
    }

    /** `handleError` of the WebView: an alert only. */
    method OnWebViewError()
      modifies this`alerts
      ensures alerts == old(alerts) + [GeneratorError]
    {
      alerts := alerts + [GeneratorError];
    }

    /** `handleRenderProcessGone` (Android) and
        `handleContentProcessDidTerminate` (iOS): they only prompt; the
        restart waits for the OK. */
    method OnProcessGone()
      modifies this`alerts, this`crashPrompts
      ensures alerts == old(alerts) + [GeneratorCrashed]
      ensures crashPrompts == old(crashPrompts) + 1
    {
      alerts := alerts + [GeneratorCrashed];
      crashPrompts := crashPrompts + 1;
    }

    /** The OK button of a 'Generator Crashed' alert. */
    method ConfirmCrashAlert()
      requires crashPrompts > 0
      modifies this`crashPrompts, this`queue, this`isReady, this`webViewKey
      ensures crashPrompts == old(crashPrompts) - 1
      ensures queue == [] && !isReady && webViewKey == old(webViewKey) + 1
    {
      crashPrompts := crashPrompts - 1;
      Restart();
    }

    /** The `forEach` over the registry. */
    method Deliver(m: Incoming)
      requires Valid()
      modifies this`delivered
      ensures delivered == old(delivered) + Deliveries(handlerOrder, handlers, m)
    {
      var order, hs := handlerOrder, handlers;
      var acc: seq<Delivery> := [];
      var i := 0;
      while i < |order|
        invariant 0 <= i <= |order| && |acc| == i
        invariant forall j :: 0 <= j < i ==> acc[j] == Delivery(order[j], Route(hs[order[j]], m))
      {
        acc := acc + [Delivery(order[i], Route(hs[order[i]], m))];
        i := i + 1;
      }
      assert acc == Deliveries(order, hs, m);
      delivered := delivered + acc;
    }

    /** `handleMessage`: an unparseable message (`None`) changes nothing; a
        parsed one sets readiness if it is `WEBVIEW_READY`, reaches every
        handler once in registration order, and a change of readiness from
        false to true runs the flush effect. */
    method HandleMessage(parsed: Option<Incoming>)
      requires Valid()
      modifies this`isReady, this`delivered, this`queue, this`injected
      ensures parsed.None? ==>
        isReady == old(isReady) && delivered == old(delivered) && queue == old(queue) && injected == old(injected)
      ensures parsed.Some? ==>
        && isReady == (old(isReady) || parsed.value.kind == Ready)
        && delivered == old(delivered) + Deliveries(handlerOrder, handlers, parsed.value)
        && (parsed.value.kind == Ready && !old(isReady) ==>
              queue == [] && injected == old(injected) + (if mounted then old(queue) else []))
        && (parsed.value.kind != Ready || old(isReady) ==>
              queue == old(queue) && injected == old(injected))
    {
      if parsed.Some? {
        var m := parsed.value;
        var wasReady := isReady;
        if m.kind == Ready {
          isReady := true;
        }
        Deliver(m);
        if isReady && !wasReady {
          FlushQueue();
        }
      }
    }

    /** The loop of `extractTextFromPDF` over offsets `i += size`, with the
        chunk index computed as `floor(i / size)`. */
    method SendChunks(payload: string, size: nat, transferId: string, totalChunks: nat)
      requires size > 0
      modifies this`queue, this`injected, this`alerts
      ensures Box() == SendAll(old(Box()), Mode(), ChunkMessages(payload, size, transferId, totalChunks, 0, 0))
    {
      ghost var all := ChunkMessages(payload, size, transferId, totalChunks, 0, 0);
      ghost var sent: seq<Outgoing> := [];
      var i := 0;
      ghost var k := 0;
      while i < |payload|
        invariant i == k * size
        invariant sent + ChunkMessages(payload, size, transferId, totalChunks, i, k) == all
        invariant Box() == SendAll(old(Box()), Mode(), sent)
        decreases |payload| - i
      {
        DivUnique(i, size, k, 0);
        var chunkIndex := i / size;
        var msg := PdfDataChunk(Chunk(payload, i, size), transferId, chunkIndex, chunkIndex == totalChunks - 1);
        ghost var rest := ChunkMessages(payload, size, transferId, totalChunks, i + size, k + 1);
        assert ChunkMessages(payload, size, transferId, totalChunks, i, k) == [msg] + rest;
        AppendOne(sent, msg, rest);
        SendAllAppend(old(Box()), Mode(), sent, [msg]);
        Send(msg);
        sent := sent + [msg];
        i := i + size;
        k := k + 1;
      }
      assert sent == all;
    }

    /** `extractTextFromPDF(payload)`: exactly the messages of
        `TransferMessages`, each through `sendMessage`. */
    method ExtractTextFromPdf(payload: string, platform: Platform, transferId: string)
      modifies this`queue, this`injected, this`alerts
      ensures Box() == SendAll(old(Box()), Mode(), TransferMessages(payload, ChunkSize(platform), transferId))
    {
      var size := ChunkSize(platform);
      if |payload| <= size {
        Send(Outgoing.ExtractTextFromPdf(payload, transferId));
        return;
      }
      var totalChunks := CeilDiv(|payload|, size);
      var start, end := PdfDataStart(transferId, totalChunks), PdfDataEnd(transferId);
      ghost var chunks := ChunkMessages(payload, size, transferId, totalChunks, 0, 0);
      Send(start);
      SendChunks(payload, size, transferId, totalChunks);
      SendAllAppend(old(Box()), Mode(), [start], chunks);
      Send(end);
      SendAllAppend(old(Box()), Mode(), [start] + chunks, [end]);
    }
  }
}
