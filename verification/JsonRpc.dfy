/** The JSON-RPC peer: outbound calls and the read loop that wakes them, under every
    interleaving, and the one answer every inbound request gets. */
module JsonRpc {
  import opened Text

  const MAX_INT64 := 0x7FFF_FFFF_FFFF_FFFF

  /** A frame as a caller receives it: a response from the peer, or the error every pending
      call gets when the connection ends. */
  datatype Frame = Response(id: int, payload: string) | ConnectionError(message: string)

  /** The connection's fields: the last id, the registered calls, whether it has ended, and
      each call's channel, which holds at most one frame. */
  datatype Shared = Shared(nextId: nat, pending: set<int>, closed: bool, channels: map<int, Option<Frame>>)

  function Registered(s: Shared): Shared {
    s.(nextId := s.nextId + 1, pending := s.pending + {s.nextId + 1}, channels := s.channels[s.nextId + 1 := None])
  }

  function Unregistered(s: Shared, id: int): Shared {
    s.(pending := s.pending - {id})
  }

  /** A send that does not block: a full channel drops the frame. */
  function Sent(s: Shared, id: int, frame: Frame): Shared {
    if id in s.channels && s.channels[id].None? then s.(channels := s.channels[id := Some(frame)]) else s
  }

  function Received(s: Shared, id: int): Shared {
    s.(channels := s.channels[id := None])
  }

  function Closed(s: Shared): Shared {
    s.(closed := true, pending := {})
  }

  /** The next channel of a map iteration, in whatever order it comes. */
  method AnyOf(ids: set<int>) returns (id: int)
    requires ids != {}
    ensures id in ids
  {
    assert (forall i :: i !in ids) ==> ids == {};
    id :| id in ids;
  }

  class Conn {
    var nextId: nat
    var pending: set<int>
    var closed: bool
    var channels: map<int, Option<Frame>>

    ghost function State(): Shared
      reads this
    {
      Shared(nextId, pending, closed, channels)
    }

    constructor ()
      ensures State() == Shared(0, {}, false, map[])
    {
      nextId, pending, closed, channels := 0, {}, false, map[];
    }

    /** A call takes the next id and an empty channel, unless the connection has ended. */
    method Register() returns (id: Option<int>)
      requires nextId < MAX_INT64
      modifies this
      ensures id == if old(closed) then None else Some(old(nextId) + 1)
      ensures State() == if old(closed) then old(State()) else Registered(old(State()))
      ensures !old(closed) ==>
        && nextId == old(nextId) + 1 && pending == old(pending) + {nextId} && !closed
        && channels == old(channels)[nextId := None]
    {
      if closed {
        return None;
      }
      nextId := nextId + 1;
      channels := channels[nextId := None];
      pending := pending + {nextId};
      id := Some(nextId);
    }

    method Unregister(id: int)
      modifies `pending
      ensures State() == Unregistered(old(State()), id) && pending == old(pending) - {id}
    {
      pending := pending - {id};
    }

    /** The read loop takes a call's channel out of the table; an unknown id has none. */
    method Take(id: int) returns (found: bool)
      modifies `pending
      ensures found == (id in old(pending)) && pending == old(pending) - {id}
      ensures State() == Unregistered(old(State()), id)
    {
      found := id in pending;
      pending := pending - {id};
    }

    method TrySend(id: int, frame: Frame)
      modifies `channels
      ensures State() == Sent(old(State()), id, frame)
      ensures channels == if id in old(channels) && old(channels)[id] == None then old(channels)[id := Some(frame)] else old(channels)
    {
      if id in channels && channels[id].None? {
        channels := channels[id := Some(frame)];
      }
    }

    /** Ends the connection and takes every pending channel at once. */
    method TakeAll() returns (taken: set<int>)
      modifies `closed, `pending
      ensures taken == old(pending) && State() == Closed(old(State())) && closed && pending == {}
    {
      closed := true;
      taken := pending;
      pending := {};
    }

    method FailAllPending(message: string)
      modifies this
      ensures closed && pending == {} && nextId == old(nextId)
      ensures channels.Keys == old(channels).Keys
      ensures forall id :: id in channels ==>
        channels[id] == if id in old(pending) && old(channels)[id].None? then Some(ConnectionError(message)) else old(channels)[id]
    {
      var taken := TakeAll();
      var rest := taken;
      while rest != {}
        invariant rest <= taken && closed && pending == {} && nextId == old(nextId)
        invariant channels.Keys == old(channels).Keys
        invariant forall id :: id in channels ==>
          channels[id] == if id in taken - rest && old(channels)[id].None? then Some(ConnectionError(message)) else old(channels)[id]
        decreases rest
      {
        var id := AnyOf(rest);
        TrySend(id, ConnectionError(message));
        rest := rest - {id};
      }
    }
  }

  /* ---- the protocol ---- */

  datatype Outcome = Got(frame: Frame) | Canceled

  /** A call's goroutine: waiting, about to unregister, or gone. */
  datatype Call = Waiting | Leaving(outcome: Outcome) | Gone(outcome: Outcome)

  /** The read loop: reading, about to send a frame it took a channel for, or ending. */
  datatype Reader = Reading | Sending(id: int, frame: Frame) | Failing(left: set<int>, message: string)

  /** The peer, with the first response frame seen for each call since it registered. */
  datatype Peer = Peer(s: Shared, calls: map<int, Call>, reader: Reader, first: map<int, Frame>)

  datatype Event =
    | Register
    | Receive(id: int)
    | Abandon(id: int)
    | Unregister(id: int)
    | Deliver(id: int, payload: string)
    | Send
    | Fail(message: string)
    | SendFail(id: int)

  predicate Is(y: Peer, id: int, c: Call) {
    id in y.calls && y.calls[id] == c
  }

  predicate Enabled(y: Peer, e: Event) {
    match e
    case Register => !y.s.closed && y.s.nextId < MAX_INT64
    case Receive(id) => Is(y, id, Waiting) && id in y.s.channels && y.s.channels[id].Some?
    case Abandon(id) => Is(y, id, Waiting)
    case Unregister(id) => id in y.calls && y.calls[id].Leaving?
    case Deliver(_, _) => y.reader == Reading
    case Send => y.reader.Sending?
    case Fail(_) => y.reader == Reading
    case SendFail(id) => y.reader.Failing? && id in y.reader.left
  }

  function After(y: Peer, e: Event): Peer
    requires Enabled(y, e)
  {
    match e
    case Register => y.(s := Registered(y.s), calls := y.calls[y.s.nextId + 1 := Waiting])
    case Receive(id) =>
      y.(s := Received(y.s, id), calls := y.calls[id := Leaving(Got(y.s.channels[id].value))])
    case Abandon(id) => y.(calls := y.calls[id := Leaving(Canceled)])
    case Unregister(id) => y.(s := Unregistered(y.s, id), calls := y.calls[id := Gone(y.calls[id].outcome)])
    case Deliver(id, payload) =>
      var frame := Response(id, payload);
      y.(s := Unregistered(y.s, id),
         reader := if id in y.s.pending then Sending(id, frame) else Reading,
         first := if id in y.calls && id !in y.first then y.first[id := frame] else y.first)
    case Send => y.(s := Sent(y.s, y.reader.id, y.reader.frame), reader := Reading)
    case Fail(message) => y.(s := Closed(y.s), reader := Failing(y.s.pending, message))
    case SendFail(id) =>
      y.(s := Sent(y.s, id, ConnectionError(y.reader.message)), reader := Failing(y.reader.left - {id}, y.reader.message))
  }

  /** The channel was taken out of the table and its frame is not sent yet. */
  predicate InFlight(r: Reader, id: int) {
    (r.Sending? && r.id == id) || (r.Failing? && id in r.left)
  }

  predicate Answered(y: Peer, id: int, frame: Frame) {
    match frame
    case Response(rid, _) => rid == id && id in y.first && y.first[id] == frame
    case ConnectionError(_) => y.s.closed
  }

  /** What holds of one call id. */
  predicate CallInv(y: Peer, id: int) {
    && (id in y.calls <==> 1 <= id <= y.s.nextId)
    && (id in y.calls <==> id in y.s.channels)
    && (id in y.s.pending || InFlight(y.reader, id) ==> id in y.calls && y.s.channels[id] == None)
    && !(id in y.s.pending && InFlight(y.reader, id))
    && (id in y.first ==> id in y.calls && id !in y.s.pending)
    && (Is(y, id, Waiting) ==> id in y.s.pending || InFlight(y.reader, id) || y.s.channels[id].Some?)
    && (id in y.s.channels && y.s.channels[id].Some? ==> Answered(y, id, y.s.channels[id].value))
    && (y.reader.Sending? && y.reader.id == id ==> Answered(y, id, y.reader.frame))
    && (id in y.calls && !y.calls[id].Waiting? && y.calls[id].outcome.Got? ==>
          && Answered(y, id, y.calls[id].outcome.frame) && y.s.channels[id] == None
          && id !in y.s.pending && !InFlight(y.reader, id))
  }

  ghost predicate Inv(y: Peer) {
    && y.s.nextId <= MAX_INT64
    && (y.s.closed <==> y.reader.Failing?)
    && (y.s.closed ==> y.s.pending == {})
    && forall id :: CallInv(y, id)
  }

  const START := Peer(Shared(0, {}, false, map[]), map[], Reading, map[])

  lemma StartInv()
    ensures Inv(START)
  {
    forall id ensures CallInv(START, id) {
    }
  }

  /** Every atomic step of every goroutine keeps the invariant. */
  lemma EventKeepsInv(y: Peer, e: Event)
    requires Inv(y) && Enabled(y, e)
    ensures Inv(After(y, e))
  {
    forall id ensures CallInv(After(y, e), id) {
      assert CallInv(y, id);
      if e.Send? || e.Fail? || e.SendFail? || e.Deliver? {
        ReaderKeepsCall(y, e, id);
      } else {
        CallerKeepsCall(y, e, id);
      }
    }
  }

  lemma ReaderKeepsCall(y: Peer, e: Event, id: int)
    requires Inv(y) && CallInv(y, id) && Enabled(y, e) && (e.Send? || e.Fail? || e.SendFail? || e.Deliver?)
    ensures CallInv(After(y, e), id)
  {
    if e == Send {
      assert CallInv(y, y.reader.id);
    }
  }

  lemma CallerKeepsCall(y: Peer, e: Event, id: int)
    requires Inv(y) && CallInv(y, id) && Enabled(y, e) && !(e.Send? || e.Fail? || e.SendFail? || e.Deliver?)
    ensures CallInv(After(y, e), id)
  {
  }

  /* ---- every run ---- */

  ghost predicate IsRun(ys: seq<Peer>, es: seq<Event>) {
    && |ys| == |es| + 1 && ys[0] == START
    && forall k :: 0 <= k < |es| ==> Enabled(ys[k], es[k]) && ys[k + 1] == After(ys[k], es[k])
  }

  lemma {:induction false} RunsKeepInv(ys: seq<Peer>, es: seq<Event>, k: nat)
    requires IsRun(ys, es) && k <= |es|
    ensures Inv(ys[k])
  {
    hide Inv, Enabled, After;
    if k == 0 {
      StartInv();
    } else {
      RunsKeepInv(ys, es, k - 1);
      EventKeepsInv(ys[k - 1], es[k - 1]);
    }
  }

  /** A registering call takes an id no call of the run ever had. */
  lemma IdsAreNeverReused(ys: seq<Peer>, es: seq<Event>, j: nat, k: nat)
    requires IsRun(ys, es) && j <= k < |es| && es[k] == Register
    ensures ys[k].s.nextId + 1 !in ys[j].calls
    ensures ys[k].s.nextId + 1 in ys[k + 1].calls && ys[k].s.nextId + 1 <= MAX_INT64
  {
    RunsKeepInv(ys, es, j);
    NextIdGrows(ys, es, j, k);
    assert CallInv(ys[j], ys[k].s.nextId + 1);
  }

  lemma {:induction false} NextIdGrows(ys: seq<Peer>, es: seq<Event>, j: nat, k: nat)
    requires IsRun(ys, es) && j <= k <= |es|
    ensures ys[j].s.nextId <= ys[k].s.nextId
  {
    hide Enabled, After;
    if j < k {
      NextIdGrows(ys, es, j, k - 1);
      StepKeepsIds(ys[k - 1], es[k - 1]);
    }
  }

  lemma StepKeepsIds(y: Peer, e: Event)
    requires Enabled(y, e)
    ensures y.s.nextId <= After(y, e).s.nextId
  {
  }

  /** A channel waiting in the table or about to be sent to is empty, so the send that does
      not block never drops a frame. */
  lemma SendNeverDrops(ys: seq<Peer>, es: seq<Event>, k: nat)
    requires IsRun(ys, es) && k < |es| && (es[k] == Send || es[k].SendFail?)
    ensures var id := if es[k] == Send then ys[k].reader.id else es[k].id;
      var frame := if es[k] == Send then ys[k].reader.frame else ConnectionError(ys[k].reader.message);
      id in ys[k + 1].s.channels && ys[k + 1].s.channels[id] == Some(frame)
  {
    RunsKeepInv(ys, es, k);
    assert CallInv(ys[k], if es[k] == Send then ys[k].reader.id else es[k].id);
  }

  /** A call that returns a response returns the first one that bore its own id after it
      registered; it returns a connection error only once the connection has ended. */
  lemma CallsGetTheirOwnResponse(ys: seq<Peer>, es: seq<Event>, k: nat, id: int)
    requires IsRun(ys, es) && k <= |es| && id in ys[k].calls
    requires !ys[k].calls[id].Waiting? && ys[k].calls[id].outcome.Got?
    ensures match ys[k].calls[id].outcome.frame
      case Response(rid, _) => rid == id && id in ys[k].first && ys[k].first[id] == ys[k].calls[id].outcome.frame
      case ConnectionError(_) => ys[k].s.closed
  {
    RunsKeepInv(ys, es, k);
    assert CallInv(ys[k], id);
  }

  /** Event `d` is the first response for the id after event `g` registered it. */
  predicate FirstResponse(ys: seq<Peer>, es: seq<Event>, id: int, g: nat, d: nat) {
    && g < d < |es| && g < |ys| && es[g] == Register && ys[g].s.nextId + 1 == id
    && es[d].Deliver? && es[d].id == id
    && forall t :: g < t < d && es[t].Deliver? ==> es[t].id != id
  }

  lemma {:induction false} RegisteredAt(ys: seq<Peer>, es: seq<Event>, k: nat, id: int) returns (g: nat)
    requires IsRun(ys, es) && k <= |es| && id in ys[k].calls
    ensures g < k && es[g] == Register && ys[g].s.nextId + 1 == id
  {
    hide Enabled, After;
    assert k > 0;
    g := k - 1;
    CallsAfter(ys[g], es[g], id);
    if !(es[g] == Register && ys[g].s.nextId + 1 == id) {
      g := RegisteredAt(ys, es, k - 1, id);
    }
  }

  lemma CallsAfter(y: Peer, e: Event, id: int)
    requires Enabled(y, e)
    ensures id in After(y, e).calls <==> id in y.calls || (e == Register && id == y.s.nextId + 1)
  {
  }

  /** What is recorded for a call is the first response event after its registration. */
  lemma {:induction false} RecordedIsFirst(ys: seq<Peer>, es: seq<Event>, k: nat, id: int, g: nat) returns (d: int)
    requires IsRun(ys, es) && g < k <= |es| && es[g] == Register && ys[g].s.nextId + 1 == id
    ensures id in ys[k].first <==> d >= 0
    ensures d >= 0 ==> d < k && FirstResponse(ys, es, id, g, d) && ys[k].first[id] == Response(id, es[d].payload)
    ensures d < 0 ==> forall t :: g < t < k && es[t].Deliver? ==> es[t].id != id
  {
    hide Enabled, After;
    RunsKeepInv(ys, es, k - 1);
    FirstAfter(ys[k - 1], es[k - 1], id);
    if g == k - 1 {
      assert CallInv(ys[g], id);
      d := -1;
    } else {
      d := RecordedIsFirst(ys, es, k - 1, id, g);
      RegisteredStays(ys, es, k - 1, id, g);
      if d < 0 && es[k - 1].Deliver? && es[k - 1].id == id {
        d := k - 1;
      }
    }
  }

  lemma {:induction false} RegisteredStays(ys: seq<Peer>, es: seq<Event>, k: nat, id: int, g: nat)
    requires IsRun(ys, es) && g < k <= |es| && es[g] == Register && ys[g].s.nextId + 1 == id
    ensures id in ys[k].calls
  {
    hide Enabled, After;
    CallsAfter(ys[k - 1], es[k - 1], id);
    if g < k - 1 {
      RegisteredStays(ys, es, k - 1, id, g);
    }
  }

  lemma FirstAfter(y: Peer, e: Event, id: int)
    requires Enabled(y, e)
    ensures var y' := After(y, e);
      if id !in y.first && e.Deliver? && e.id == id && id in y.calls
      then id in y'.first && y'.first[id] == Response(id, e.payload)
      else (id in y'.first <==> id in y.first) && (id in y.first ==> y'.first[id] == y.first[id])
  {
  }

  /** A call that returns a response returns the payload of the first response event for its
      id after the event that registered it. */
  lemma ReturnedIsFirstResponse(ys: seq<Peer>, es: seq<Event>, k: nat, id: int) returns (g: nat, d: nat)
    requires IsRun(ys, es) && k <= |es| && id in ys[k].calls
    requires !ys[k].calls[id].Waiting? && ys[k].calls[id].outcome.Got? && ys[k].calls[id].outcome.frame.Response?
    ensures FirstResponse(ys, es, id, g, d) && d < k && ys[k].calls[id].outcome.frame == Response(id, es[d].payload)
  {
    hide Enabled, After, FirstResponse;
    CallsGetTheirOwnResponse(ys, es, k, id);
    g := RegisteredAt(ys, es, k, id);
    var at := RecordedIsFirst(ys, es, k, id, g);
    d := at;
  }

  /** One more event at the end of a run. */
  lemma Extend(ys: seq<Peer>, es: seq<Event>, y: Peer, e: Event) returns (ys': seq<Peer>, es': seq<Event>, z: Peer)
    requires IsRun(ys, es) && |ys| == |es| + 1 && ys[|es|] == y && Enabled(y, e)
    ensures z == After(y, e) && IsRun(ys', es') && |ys'| == |es'| + 1 && ys'[|es'|] == z
  {
    hide After;
    z := After(y, e);
    ys', es' := ys + [z], es + [e];
  }

  lemma NothingYet()
    ensures IsRun([START], [])
  {
  }

  /** A call is answered: registered, delivered to, and returned with what was delivered. */
  lemma CallReturns(payload: string) returns (ys: seq<Peer>, es: seq<Event>)
    ensures IsRun(ys, es) && |ys| == |es| + 1 && Is(ys[|es|], 1, Gone(Got(Response(1, payload))))
  {
    hide IsRun;
    ys, es := [START], [];
    NothingYet();
    var y;
    ys, es, y := Extend(ys, es, START, Register);
    ys, es, y := Extend(ys, es, y, Deliver(1, payload));
    ys, es, y := Extend(ys, es, y, Send);
    ys, es, y := Extend(ys, es, y, Receive(1));
    ys, es, y := Extend(ys, es, y, Unregister(1));
  }

  /** And one that waits when the connection ends returns its error. */
  lemma CallFails(message: string) returns (ys: seq<Peer>, es: seq<Event>)
    ensures IsRun(ys, es) && |ys| == |es| + 1 && Is(ys[|es|], 1, Gone(Got(ConnectionError(message))))
  {
    hide IsRun;
    ys, es := [START], [];
    NothingYet();
    var y;
    ys, es, y := Extend(ys, es, START, Register);
    ys, es, y := Extend(ys, es, y, Fail(message));
    ys, es, y := Extend(ys, es, y, SendFail(1));
    ys, es, y := Extend(ys, es, y, Receive(1));
    ys, es, y := Extend(ys, es, y, Unregister(1));
  }

  /** `first` is what its name says: recorded by the first response after registration, and
      never overwritten. */
  lemma FirstResponseIsKept(y: Peer, e: Event, id: int)
    requires Inv(y) && Enabled(y, e)
    ensures id in y.first ==> id in After(y, e).first && After(y, e).first[id] == y.first[id]
    ensures id !in y.first && id in After(y, e).first ==>
      e.Deliver? && e.id == id && id in y.calls && After(y, e).first[id] == Response(id, e.payload)
    ensures e.Deliver? && e.id in y.calls ==> e.id in After(y, e).first
  {
  }

  /** Once the connection has ended, every call that has not returned can take a message,
      or is about to be sent one, and no call registers. */
  lemma NoLostWakeup(ys: seq<Peer>, es: seq<Event>, k: nat, id: int) returns (e: Event)
    requires IsRun(ys, es) && k <= |es| && ys[k].s.closed && Is(ys[k], id, Waiting)
    ensures Enabled(ys[k], e) && (e == Receive(id) || e == SendFail(id))
    ensures ys[k].reader.Failing? && (ys[k].reader.left == {} ==> e == Receive(id))
    ensures !Enabled(ys[k], Register)
  {
    RunsKeepInv(ys, es, k);
    assert CallInv(ys[k], id);
    e := if ys[k].s.channels[id].Some? then Receive(id) else SendFail(id);
  }

  /** A call whose response frame arrived is never left waiting without a message. */
  lemma DeliveredCallIsReleased(ys: seq<Peer>, es: seq<Event>, k: nat, id: int) returns (e: Event)
    requires IsRun(ys, es) && k <= |es| && Is(ys[k], id, Waiting) && id in ys[k].first
    ensures Enabled(ys[k], e) && (e == Receive(id) || (e == Send && ys[k].reader.id == id) || e == SendFail(id))
  {
    RunsKeepInv(ys, es, k);
    assert CallInv(ys[k], id);
    e := if ys[k].s.channels[id].Some? then Receive(id) else if ys[k].reader.Sending? then Send else SendFail(id);
  }

  /* ---- inbound frames ---- */

  const PARSE_ERROR := -32700
  const INVALID_REQUEST := -32600
  const METHOD_NOT_FOUND := -32601
  const INTERNAL_ERROR := -32603

  /** One line of the stream: text that does not parse, or a message by its fields. An
      absent field is the empty string. */
  datatype Line = Unparseable | Message(version: string, id: string, method': string)

  /** What a handler gives back: a result, whose encoding may fail, or an error of its own
      code or of none. */
  datatype Handled = Result(encoded: Option<string>) | ProtocolError(code: int) | OtherError

  datatype Wire = WireResult(id: string, result: string) | WireError(id: string, code: int)

  predicate SupportedVersion(m: Line)
    requires m.Message?
  {
    m.version == "" || m.version == "2.0"
  }

  predicate IsRequest(m: Line) {
    m.Message? && SupportedVersion(m) && m.method' != "" && m.id != ""
  }

  predicate IsResponse(m: Line) {
    m.Message? && SupportedVersion(m) && m.method' == "" && m.id != ""
  }

  /** The answer the read loop itself writes: to a line that does not parse, and to a message
      of an unknown version that carries an id. */
  function ImmediateAnswer(m: Line): Option<Wire> {
    match m
    case Unparseable => Some(WireError("null", PARSE_ERROR))
    case Message(_, id, _) =>
      if !SupportedVersion(m) && id != "" then Some(WireError(id, INVALID_REQUEST)) else None
  }

  /** Handles one line: at most one answer at once, and a request or response to hand on. A
      line of a supported version gets none, so the last branch never runs. */
  method HandleLine(m: Line) returns (written: seq<Wire>, dispatched: bool, delivered: bool)
    ensures written == if ImmediateAnswer(m).Some? then [ImmediateAnswer(m).value] else []
    ensures m.Message? && SupportedVersion(m) ==> written == []
    ensures dispatched == IsRequest(m) && delivered == IsResponse(m)
    ensures dispatched <==> m.Message? && (m.version == "" || m.version == "2.0") && m.method' != "" && m.id != ""
    ensures delivered <==> m.Message? && (m.version == "" || m.version == "2.0") && m.method' == "" && m.id != ""
    ensures written ==
      if m.Unparseable? then [WireError("null", -32700)]
      else if m.version != "" && m.version != "2.0" && m.id != "" then [WireError(m.id, -32600)]
      else []
  {
    written, dispatched, delivered := [], false, false;
    if m.Unparseable? {
      return [WireError("null", PARSE_ERROR)], false, false;
    }
    var version, id, name := m.version, m.id, m.method';
    if version != "" && version != "2.0" {
      if |id| > 0 {
        written := [WireError(id, INVALID_REQUEST)];
      }
      return;
    }
    if name == "" && |id| > 0 {
      delivered := true;
    } else if name != "" && |id| > 0 {
      dispatched := true;
    } else if name != "" && |id| == 0 {
      return;
    } else if |id| > 0 {
      written := [WireError(id, INVALID_REQUEST)];
    }
  }

  /** A dispatched request is answered exactly once, under its own id. */
  method DispatchRequest(m: Line, known: string -> bool, handle: string -> Handled) returns (written: seq<Wire>)
    requires m.Message?
    ensures |written| == 1 && written[0].id == m.id
    ensures written[0].WireResult? <==> known(m.method') && handle(m.method').Result? && handle(m.method').encoded.Some?
    ensures written[0].WireResult? ==> handle(m.method').encoded == Some(written[0].result)
    ensures !known(m.method') ==> written == [WireError(m.id, METHOD_NOT_FOUND)]
    ensures known(m.method') && handle(m.method').ProtocolError? ==> written == [WireError(m.id, handle(m.method').code)]
    ensures known(m.method') && (handle(m.method').OtherError? || handle(m.method') == Result(None))
      ==> written == [WireError(m.id, INTERNAL_ERROR)]
  {
    if !known(m.method') {
      return [WireError(m.id, METHOD_NOT_FOUND)];
    }
    match handle(m.method') {
      case ProtocolError(code) => written := [WireError(m.id, code)];
      case OtherError => written := [WireError(m.id, INTERNAL_ERROR)];
      case Result(encoded) =>
        if encoded.None? {
          written := [WireError(m.id, INTERNAL_ERROR)];
        } else {
          written := [WireResult(m.id, encoded.value)];
        }
    }
  }

  /* ---- serving a whole stream ---- */

  /** How far the read loop is, the requests whose handlers run, and the answers written,
      each with the number of its line. */
  datatype Serving = Serving(read: nat, running: set<nat>, log: seq<(nat, Wire)>)

  datatype ServeEvent = ReadLine | Answer(k: nat, wire: Wire)

  predicate CanServe(lines: seq<Line>, v: Serving, e: ServeEvent) {
    match e
    case ReadLine => v.read < |lines|
    case Answer(k, wire) => k in v.running && k < |lines| && lines[k].Message? && wire.id == lines[k].id
  }

  function Served(lines: seq<Line>, v: Serving, e: ServeEvent): Serving
    requires CanServe(lines, v, e)
  {
    match e
    case ReadLine =>
      var m := lines[v.read];
      Serving(v.read + 1, if IsRequest(m) then v.running + {v.read} else v.running,
              if ImmediateAnswer(m).Some? then v.log + [(v.read, ImmediateAnswer(m).value)] else v.log)
    case Answer(k, wire) => v.(running := v.running - {k}, log := v.log + [(k, wire)])
  }

  /** The number of answers written to line `k`. */
  function Answers(log: seq<(nat, Wire)>, k: nat): nat {
    if log == [] then 0 else Answers(log[..|log| - 1], k) + if log[|log| - 1].0 == k then 1 else 0
  }

  lemma AnswersSnoc(log: seq<(nat, Wire)>, entry: (nat, Wire), k: nat)
    ensures Answers(log + [entry], k) == Answers(log, k) + if entry.0 == k then 1 else 0
  {
    assert (log + [entry])[..|log|] == log;
  }

  predicate NeedsAnswer(m: Line) {
    IsRequest(m) || ImmediateAnswer(m).Some?
  }

  predicate LineInv(lines: seq<Line>, v: Serving, k: nat) {
    && v.read <= |lines|
    && (k in v.running ==> k < v.read && IsRequest(lines[k]))
    && Answers(v.log, k) == if k < v.read && NeedsAnswer(lines[k]) && k !in v.running then 1 else 0
  }

  /** Answer `t` of the log is its line's own: under the request's id, or the one the read
      loop gives. */
  predicate OwnAnswer(lines: seq<Line>, v: Serving, t: nat)
    requires t < |v.log|
  {
    var k, wire := v.log[t].0, v.log[t].1;
    k < v.read <= |lines| && if IsRequest(lines[k]) then wire.id == lines[k].id else Some(wire) == ImmediateAnswer(lines[k])
  }

  ghost predicate ServeInv(lines: seq<Line>, v: Serving) {
    (forall k: nat :: LineInv(lines, v, k)) && forall t :: 0 <= t < |v.log| ==> OwnAnswer(lines, v, t)
  }

  lemma ServedKeeps(lines: seq<Line>, v: Serving, e: ServeEvent)
    requires ServeInv(lines, v) && CanServe(lines, v, e)
    ensures ServeInv(lines, Served(lines, v, e))
  {
    hide Answers;
    forall k: nat ensures LineInv(lines, Served(lines, v, e), k) {
      assert LineInv(lines, v, k);
      if e.ReadLine? {
        if ImmediateAnswer(lines[v.read]).Some? {
          AnswersSnoc(v.log, (v.read, ImmediateAnswer(lines[v.read]).value), k);
        }
      } else {
        AnswersSnoc(v.log, (e.k, e.wire), k);
        assert LineInv(lines, v, e.k);
      }
    }
    var w := Served(lines, v, e);
    forall t | 0 <= t < |w.log| ensures OwnAnswer(lines, w, t) {
      assert LineInv(lines, v, 0);
      if t < |v.log| {
        assert OwnAnswer(lines, v, t);
      } else if e.Answer? {
        assert LineInv(lines, v, e.k);
      }
    }
  }

  /** What is left to do: two steps for a line that is not read, one for a running request. */
  function Left(lines: seq<Line>, v: Serving): int {
    2 * (|lines| - v.read) + |v.running|
  }

  /** Until the stream is read and every handler is done something can be done, and whatever
      is done leaves less. */
  lemma ServingGoesOn(lines: seq<Line>, v: Serving) returns (e: ServeEvent)
    requires ServeInv(lines, v) && (v.read < |lines| || v.running != {})
    ensures CanServe(lines, v, e)
  {
    e := ReadLine;
    if v.read >= |lines| {
      var k :| k in v.running;
      assert LineInv(lines, v, k);
      e := Answer(k, WireError(lines[k].id, INTERNAL_ERROR));
    }
  }

  lemma ServingCountsDown(lines: seq<Line>, v: Serving, e: ServeEvent)
    requires ServeInv(lines, v) && CanServe(lines, v, e)
    ensures 0 <= Left(lines, Served(lines, v, e)) < Left(lines, v)
  {
    assert LineInv(lines, v, v.read);
  }

  ghost predicate IsServeRun(lines: seq<Line>, vs: seq<Serving>, es: seq<ServeEvent>) {
    && |vs| == |es| + 1 && vs[0] == Serving(0, {}, [])
    && forall k :: 0 <= k < |es| ==> CanServe(lines, vs[k], es[k]) && vs[k + 1] == Served(lines, vs[k], es[k])
  }

  lemma {:induction false} ServeRunsKeepInv(lines: seq<Line>, vs: seq<Serving>, es: seq<ServeEvent>, n: nat)
    requires IsServeRun(lines, vs, es) && n <= |es|
    ensures ServeInv(lines, vs[n])
  {
    hide ServeInv, CanServe, Served;
    if n == 0 {
      NothingServed(lines);
    } else {
      ServeRunsKeepInv(lines, vs, es, n - 1);
      ServedKeeps(lines, vs[n - 1], es[n - 1]);
    }
  }

  lemma NothingServed(lines: seq<Line>)
    ensures ServeInv(lines, Serving(0, {}, []))
  {
  }

  /** However the handlers interleave, once the stream is read and they are done every
      request has exactly one answer, and a notification or a response has none. */
  lemma EveryRequestAnsweredOnce(lines: seq<Line>, vs: seq<Serving>, es: seq<ServeEvent>, n: nat, k: nat)
    requires IsServeRun(lines, vs, es) && n <= |es| && k < vs[n].read && k < |lines|
    ensures vs[n].running == {} ==> Answers(vs[n].log, k) == if NeedsAnswer(lines[k]) then 1 else 0
    ensures Answers(vs[n].log, k) <= 1
    ensures forall t :: 0 <= t < |vs[n].log| ==> OwnAnswer(lines, vs[n], t)
  {
    ServeRunsKeepInv(lines, vs, es, n);
    assert LineInv(lines, vs[n], k);
  }
}
