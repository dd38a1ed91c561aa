/**
 * The host's resource table and the requests it pushes to a guest: each request names table entries
 * through which the guest answers, and a push that fails leaves no entry behind.
 */
module HostRequests {
  import opened Common

  const RESOURCE_ID_MAX: nat := 8192
  const CHANNEL_CAPACITY: nat := 20

  datatype Error = NotFound | ResourceLimited | AlreadyExists | SendFailed | IoError | UnsupportedOperation

  /**
   * A reply sender and a body stream carry the number of the request they were made for. A sender that
   * has been used stays in its slot, no longer armed.
   */
  datatype Resource =
    | Reply(request: nat, armed: bool)
    | BodyStream(request: nat)
    | QueryRx
    | HttpRx
    | Other(tag: nat)

  datatype Message = Message(request: nat, reply: nat, stream: Option<nat>)

  /** A bounded channel; `open` is false once its receiver is dropped. */
  datatype Channel = Channel(queue: seq<Message>, open: bool)

  type Slots = seq<Option<Resource>>

  datatype Host = Host(slots: Slots, query: Option<Channel>, http: Option<Channel>)

  // The table

  /** The table as the guest sees it: ids and what they hold. */
  ghost function Live(slots: Slots): map<nat, Resource> {
    map i: nat | i < |slots| && slots[i].Some? :: slots[i].value
  }

  ghost predicate NoneFreeBelow(slots: Slots, i: nat)
    requires i <= |slots|
  {
    forall j :: 0 <= j < i ==> slots[j].Some?
  }

  /** The least free slot, or the length when all are taken. */
  function FirstFree(slots: Slots, from: nat := 0): (i: nat)
    requires from <= |slots| && NoneFreeBelow(slots, from)
    ensures i <= |slots| && NoneFreeBelow(slots, i)
    ensures i < |slots| ==> slots[i].None?
    decreases |slots| - from
  {
    if from == |slots| || slots[from].None? then from else FirstFree(slots, from + 1)
  }

  function Pushed(slots: Slots, res: Resource): Option<(nat, Slots)> {
    var i := FirstFree(slots);
    if i < |slots| then Some((i, slots[i := Some(res)]))
    else if |slots| >= RESOURCE_ID_MAX then None
    else Some((i, slots + [Some(res)]))
  }

  function Taken(slots: Slots, id: nat): Slots {
    if id < |slots| then slots[id := None] else slots
  }

  /** A push takes the least id that is not live and changes nothing else; it fails when every id is live. */
  lemma PushTakesLeastFree(slots: Slots, res: Resource)
    requires |slots| <= RESOURCE_ID_MAX
    ensures Pushed(slots, res).None? <==> forall i: nat :: i < RESOURCE_ID_MAX ==> i in Live(slots)
    ensures Pushed(slots, res).Some? ==>
      var (id, slots') := Pushed(slots, res).value;
      && id !in Live(slots) && id < RESOURCE_ID_MAX
      && (forall j: nat :: j < id ==> j in Live(slots))
      && |slots'| <= RESOURCE_ID_MAX
      && Live(slots') == Live(slots)[id := res]
  {
    var i := FirstFree(slots);
    assert i !in Live(slots);
    assert forall j: nat :: j < i ==> slots[j].Some?;
  }

  lemma TakeRemoves(slots: Slots, id: nat)
    ensures Live(Taken(slots, id)) == Live(slots) - {id}
    ensures |Taken(slots, id)| == |slots|
  {
  }

  // Requests

  predicate Accepts(c: Channel) {
    c.open && |c.queue| < CHANNEL_CAPACITY
  }

  function Sent(c: Channel, m: Message): Channel {
    c.(queue := c.queue + [m])
  }

  ghost function QueryPushed(h: Host, request: nat): (Host, Result<(), Error>) {
    if h.query.None? then (h, Ok(()))
    else
      match Pushed(h.slots, Reply(request, true))
      case None => (h, Err(ResourceLimited))
      case Some((reply, slots)) =>
        if Accepts(h.query.value) then
          (h.(slots := slots, query := Some(Sent(h.query.value, Message(request, reply, None)))), Ok(()))
        else
          (h.(slots := Taken(slots, reply)), Err(SendFailed))
  }

  ghost function HttpPushed(h: Host, request: nat): (Host, Result<(), Error>) {
    if h.http.None? then (h, Ok(()))
    else
      match Pushed(h.slots, Reply(request, true))
      case None => (h, Err(ResourceLimited))
      case Some((reply, slots)) =>
        match Pushed(slots, BodyStream(request))
        case None => (h.(slots := Taken(slots, reply)), Err(ResourceLimited))
        case Some((stream, slots')) =>
          if Accepts(h.http.value) then
            (h.(slots := slots', http := Some(Sent(h.http.value, Message(request, reply, Some(stream))))), Ok(()))
          else
            (h.(slots := Taken(Taken(slots', reply), stream)), Err(SendFailed))
  }

  ghost function Hungup(c: Option<Channel>): Option<Channel> {
    if c.None? then None else Some(Channel([], false))
  }

  /** Closing an entry drops what it holds; dropping a receiver closes its channel. */
  ghost function Closed(h: Host, id: nat): Host {
    var h' := h.(slots := Taken(h.slots, id));
    if id !in Live(h.slots) then h'
    else if Live(h.slots)[id].QueryRx? then h'.(query := Hungup(h.query))
    else if Live(h.slots)[id].HttpRx? then h'.(http := Hungup(h.http))
    else h'
  }

  /**
   * A reply leaves through the entry, whose sender can then not be used again. It fails, with the sender
   * used up, when the request's receiver is gone.
   */
  ghost function Replied(h: Host, id: nat, gone: set<nat>): (Host, Result<nat, Error>) {
    if id !in Live(h.slots) then (h, Err(NotFound))
    else
      match Live(h.slots)[id]
      case Reply(request, true) =>
        (h.(slots := h.slots[id := Some(Reply(request, false))]), if request in gone then Err(IoError) else Ok(request))
      case Reply(_, false) => (h, Err(IoError))
      case _ => (h, Err(UnsupportedOperation))
  }

  ghost function ChannelCreated(h: Host, query: bool): (Host, Result<nat, Error>) {
    if (if query then h.query else h.http).Some? then (h, Err(AlreadyExists))
    else
      match Pushed(h.slots, if query then QueryRx else HttpRx)
      case None => (h, Err(ResourceLimited))
      case Some((id, slots)) =>
        var created := Some(Channel([], true));
        (if query then h.(slots := slots, query := created) else h.(slots := slots, http := created), Ok(id))
  }

  ghost predicate SameChannels(h: Host, h': Host) {
    h'.query == h.query && h'.http == h.http
  }

  /** One new entry and one new message that names it. */
  ghost predicate QueryQueued(h: Host, h': Host, request: nat, reply: nat)
    requires h.query.Some?
  {
    && reply !in Live(h.slots)
    && Live(h'.slots) == Live(h.slots)[reply := Reply(request, true)]
    && h'.query == Some(Sent(h.query.value, Message(request, reply, None)))
    && h'.http == h.http
  }

  /** Two new entries and one new message that names them. */
  ghost predicate HttpQueued(h: Host, h': Host, request: nat, reply: nat, stream: nat)
    requires h.http.Some?
  {
    && reply !in Live(h.slots) && stream !in Live(h.slots) && reply != stream
    && Live(h'.slots) == Live(h.slots)[reply := Reply(request, true)][stream := BodyStream(request)]
    && h'.http == Some(Sent(h.http.value, Message(request, reply, Some(stream))))
    && h'.query == h.query
  }

  /**
   * A query either is queued together with one new entry that holds its reply sender, or leaves the
   * live entries and the channels as they were.
   */
  lemma QueryPushIsTransactional(h: Host, request: nat)
    requires |h.slots| <= RESOURCE_ID_MAX
    ensures var (h', r) := QueryPushed(h, request);
      && |h'.slots| <= RESOURCE_ID_MAX
      && (r.Err? || h.query.None? ==> Live(h'.slots) == Live(h.slots) && SameChannels(h, h'))
      && (r.Ok? && h.query.Some? ==>
        exists reply: nat :: QueryQueued(h, h', request, reply))
    ensures QueryPushed(h, request).1.Ok? <==>
      h.query.None? || (Accepts(h.query.value) && exists i: nat :: i < RESOURCE_ID_MAX && i !in Live(h.slots))
  {
    PushTakesLeastFree(h.slots, Reply(request, true));
    var p := Pushed(h.slots, Reply(request, true));
    if p.Some? {
      var (reply, slots) := p.value;
      TakeRemoves(slots, reply);
      assert Live(h.slots)[reply := Reply(request, true)] - {reply} == Live(h.slots);
      if h.query.Some? && Accepts(h.query.value) {
        assert QueryQueued(h, QueryPushed(h, request).0, request, reply);
      }
    }
    hide Pushed, Taken, Live;
  }

  lemma HttpPushIsTransactional(h: Host, request: nat)
    requires |h.slots| <= RESOURCE_ID_MAX
    ensures var (h', r) := HttpPushed(h, request);
      && |h'.slots| <= RESOURCE_ID_MAX
      && (r.Err? || h.http.None? ==> Live(h'.slots) == Live(h.slots) && SameChannels(h, h'))
      && (r.Ok? && h.http.Some? ==>
        exists reply: nat, stream: nat :: HttpQueued(h, h', request, reply, stream))
    ensures HttpPushed(h, request).1.Ok? <==>
      h.http.None? || (Accepts(h.http.value)
        && exists i: nat, j: nat :: i < j < RESOURCE_ID_MAX && i !in Live(h.slots) && j !in Live(h.slots))
  {
    PushTakesLeastFree(h.slots, Reply(request, true));
    var p := Pushed(h.slots, Reply(request, true));
    if p.Some? {
      var (reply, slots) := p.value;
      TakeRemoves(slots, reply);
      assert Live(h.slots)[reply := Reply(request, true)] - {reply} == Live(h.slots);
      PushTakesLeastFree(slots, BodyStream(request));
      var q := Pushed(slots, BodyStream(request));
      if q.Some? {
        var (stream, slots') := q.value;
        TakeRemoves(slots', reply);
        TakeRemoves(Taken(slots', reply), stream);
        assert Live(h.slots)[reply := Reply(request, true)][stream := BodyStream(request)] - {reply} - {stream}
            == Live(h.slots);
        if h.http.Some? && Accepts(h.http.value) {
          assert HttpQueued(h, HttpPushed(h, request).0, request, reply, stream);
        }
      }
    }
    hide Pushed, Taken, Live;
  }

  // The host context

  class WapoCtx {
    var resources: Slots
    var queryTx: Option<Channel>
    var httpConnectTx: Option<Channel>

    ghost predicate Valid()
      reads this
    {
      |resources| <= RESOURCE_ID_MAX
    }

    ghost function Model(): Host
      reads this
    {
      Host(resources, queryTx, httpConnectTx)
    }

    constructor ()
      ensures Valid() && Model() == Host([], None, None)
    {
      resources, queryTx, httpConnectTx := [], None, None;
    }

    method Push(resource: Resource) returns (r: Result<nat, Error>)
      requires Valid()
      modifies this`resources
      ensures Valid()
      ensures match Pushed(old(resources), resource)
        case None => r == Err(ResourceLimited) && resources == old(resources)
        case Some((id, slots)) => r == Ok(id) && resources == slots
    {
      PushTakesLeastFree(resources, resource);
      var i := 0;
      while i < |resources|
        invariant i <= |resources| && NoneFreeBelow(resources, i)
        invariant resources == old(resources)
        invariant FirstFree(resources) == FirstFree(resources, i)
      {
        if resources[i].None? {
          resources := resources[i := Some(resource)];
          return Ok(i);
        }
        i := i + 1;
      }
      if |resources| >= RESOURCE_ID_MAX {
        return Err(ResourceLimited);
      }
      r := Ok(|resources|);
      resources := resources + [Some(resource)];
    }

    method Take(resourceId: int) returns (r: Option<Resource>)
      requires Valid() && -TWO31 <= resourceId < TWO31
      modifies this`resources
      ensures Valid() && resources == Taken(old(resources), AsU32(resourceId))
      ensures r.Some? <==> AsU32(resourceId) in Live(old(resources))
      ensures r.Some? ==> r.value == Live(old(resources))[AsU32(resourceId)]
    {
      var id := AsU32(resourceId);
      if id >= |resources| {
        return None;
      }
      r := resources[id];
      resources := resources[id := None];
    }

    method Close(resourceId: int) returns (r: Result<(), Error>)
      requires Valid() && -TWO31 <= resourceId < TWO31
      modifies this
      ensures Valid() && Model() == Closed(old(Model()), AsU32(resourceId))
      ensures r == if AsU32(resourceId) in Live(old(resources)) then Ok(()) else Err(NotFound)
    {
      var taken := Take(resourceId);
      if taken.None? {
        return Err(NotFound);
      }
      if taken.value.QueryRx? && queryTx.Some? {
        queryTx := Some(Channel([], false));
      } else if taken.value.HttpRx? && httpConnectTx.Some? {
        httpConnectTx := Some(Channel([], false));
      }
      r := Ok(());
    }

    /** Rejects exactly the ids that `Take` rejects: negative ones, ones never given out and ones taken back. */
    method GetMut(id: int) returns (r: Option<Resource>)
      requires Valid() && -TWO31 <= id < TWO31
      ensures r.Some? <==> AsU32(id) in Live(resources)
      ensures r.Some? ==> 0 <= id < |resources| && r.value == Live(resources)[id]
    {
      var at := AsUsize(id);
      if at >= |resources| {
        return None;
      }
      r := resources[at];
    }

    /** Tells which request was answered; `gone` are the requests whose receivers have been dropped. */
    method OneshotSend(resourceId: int, gone: set<nat>) returns (r: Result<nat, Error>)
      requires Valid() && -TWO31 <= resourceId < TWO31
      modifies this
      ensures Valid() && (Model(), r) == Replied(old(Model()), AsU32(resourceId), gone)
    {
      var res := GetMut(resourceId);
      if res.None? {
        return Err(NotFound);
      }
      match res.value {
        case Reply(request, true) =>
          resources := resources[resourceId := Some(Reply(request, false))];
          r := if request in gone then Err(IoError) else Ok(request);
        case Reply(_, false) => r := Err(IoError);
        case _ => r := Err(UnsupportedOperation);
      }
    }

    method CreateInputChannel(query: bool) returns (r: Result<nat, Error>)
      requires Valid()
      modifies this
      ensures Valid() && (Model(), r) == ChannelCreated(old(Model()), query)
    {
      if query {
        if queryTx.Some? {
          return Err(AlreadyExists);
        }
        r := Push(QueryRx);
        if r.Ok? {
          queryTx := Some(Channel([], true));
        }
      } else {
        if httpConnectTx.Some? {
          return Err(AlreadyExists);
        }
        r := Push(HttpRx);
        if r.Ok? {
          httpConnectTx := Some(Channel([], true));
        }
      }
    }

    method PushQuery(request: nat) returns (r: Result<(), Error>)
      requires Valid()
      modifies this
      ensures Valid() && (Model(), r) == QueryPushed(old(Model()), request)
    {
      if queryTx.None? {
        return Ok(());
      }
      var reply := Push(Reply(request, true));
      if reply.Err? {
        return Err(reply.error);
      }
      if Accepts(queryTx.value) {
        queryTx := Some(Sent(queryTx.value, Message(request, reply.value, None)));
        return Ok(());
      }
      PushedIsThere(old(resources), Reply(request, true));
      var _ := Close(reply.value);
      r := Err(SendFailed);
    }

    method PushHttpRequest(request: nat) returns (r: Result<(), Error>)
      requires Valid()
      modifies this
      ensures Valid() && (Model(), r) == HttpPushed(old(Model()), request)
    {
      if httpConnectTx.None? {
        return Ok(());
      }
      var reply := Push(Reply(request, true));
      if reply.Err? {
        return Err(reply.error);
      }
      ghost var one := resources;
      PushedIsThere(old(resources), Reply(request, true));
      var stream := Push(BodyStream(request));
      if stream.Err? {
        var _ := Close(reply.value);
        return Err(stream.error);
      }
      PushedIsThere(one, BodyStream(request));
      if Accepts(httpConnectTx.value) {
        httpConnectTx := Some(Sent(httpConnectTx.value, Message(request, reply.value, Some(stream.value))));
        return Ok(());
      }
      var _ := Close(reply.value);
      var _ := Close(stream.value);
      r := Err(SendFailed);
    }
  }

  lemma PushedIsThere(slots: Slots, res: Resource)
    requires |slots| <= RESOURCE_ID_MAX && Pushed(slots, res).Some?
    ensures var (id, slots') := Pushed(slots, res).value;
      && id < RESOURCE_ID_MAX
      && Live(slots') == Live(slots)[id := res]
      && id !in Live(slots)
  {
    PushTakesLeastFree(slots, res);
  }
}
