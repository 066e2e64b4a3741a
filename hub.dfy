/**
 * The websocket hub: the registry of connected clients, each client's
 * bounded send queue (capacity 256), the fan-out of broadcast events, the
 * writer that drains a queue onto the connection, and the reader that
 * dispatches inbound messages.
 *
 * Channels become explicit state: a client's send channel is its queue and
 * a closed flag, and each select case of Hub.Run, each receive of
 * writePump and each message of readPump is one atomic method call.
 */
module Websocket {
  import opened Wrappers
  import opened Events

  /** Clients are compared by identity; fresh clients get fresh ids. */
  type ClientId = nat

  /** The buffer size of every client's send channel. */
  const Capacity := 256

  /** What the writer puts on the connection. */
  datatype Frame = EventFrame(event: Event) | CloseFrame

  /**
   * One client's channel side: its send channel (queued events and whether
   * it was closed), what its writer has written, and whether its writer has
   * stopped. Its role and its reader are kept by the hub beside it.
   */
  datatype Client = Client(queue: seq<Event>, closed: bool, written: seq<Frame>, writerDone: bool)

  function NewClient(): Client {
    Client([], false, [], false)
  }

  predicate HasRoom(c: Client) {
    |c.queue| < Capacity
  }

  /** The per-client select of a broadcast: enqueue when there is room, otherwise close. */
  function Offer(c: Client, e: Event): (r: Client)
    ensures HasRoom(c) ==> r.queue == c.queue + [e] && !r.closed == !c.closed
    ensures !HasRoom(c) ==> r.queue == c.queue && r.closed
    ensures r.written == c.written && r.writerDone == c.writerDone
  {
    if HasRoom(c) then c.(queue := c.queue + [e]) else c.(closed := true)
  }

  /** The events among written frames, in order. */
  function EventsOf(frames: seq<Frame>): seq<Event> {
    if frames == [] then []
    else
      var rest := EventsOf(frames[..|frames| - 1]);
      var f := frames[|frames| - 1];
      if f.EventFrame? then rest + [f.event] else rest
  }

  lemma AppendAssoc(a: seq<Event>, b: seq<Event>, c: seq<Event>)
    ensures a + b + c == a + (b + c)
  {
  }

  /**
   * A client's channel holds at most its capacity and, while its writer
   * runs, what the writer wrote followed by what is queued is exactly sent,
   * the events ever put into the channel, in order.
   */
  ghost predicate ClientOk(c: Client, sent: seq<Event>) {
    |c.queue| <= Capacity && (!c.writerDone ==> sent == EventsOf(c.written) + c.queue)
  }

  /** Offering an event keeps a client consistent with its history extended by what was enqueued. */
  lemma OfferKeepsOk(c: Client, sent: seq<Event>, e: Event)
    requires ClientOk(c, sent)
    ensures ClientOk(Offer(c, e), if HasRoom(c) then sent + [e] else sent)
  {
    if HasRoom(c) {
      AppendAssoc(EventsOf(c.written), c.queue, [e]);
    }
  }

  lemma EventsOfAppend(ws: seq<Frame>, f: Frame)
    ensures EventsOf(ws + [f]) == EventsOf(ws) + if f.EventFrame? then [f.event] else []
  {
    assert (ws + [f])[..|ws|] == ws;
  }

  /**
   * One receive of writePump: a queued event is written, or, on a write
   * error, dropped and the writer stops; a closed, drained channel makes it
   * write a close message and stop; an open, empty channel blocks and
   * nothing changes. The second component is the frame written, if any.
   */
  function WriterNext(c: Client, writeOk: bool): (r: (Client, Option<Frame>))
    ensures c.queue != [] ==> r.0.queue == c.queue[1..] && r.0.writerDone == (c.writerDone || !writeOk)
    ensures c.queue != [] && writeOk ==> r.1 == Some(EventFrame(c.queue[0])) && r.0.written == c.written + [r.1.value]
    ensures c.queue != [] && !writeOk ==> r.1 == None && r.0.written == c.written
    ensures c.queue == [] && c.closed ==> r.1 == Some(CloseFrame) && r.0.written == c.written + [CloseFrame] && r.0.writerDone
    ensures c.queue == [] && !c.closed ==> r == (c, None)
    ensures r.0.closed == c.closed
  {
    if c.queue != [] then
      var e := c.queue[0];
      if writeOk then (c.(queue := c.queue[1..], written := c.written + [EventFrame(e)]), Some(EventFrame(e)))
      else (c.(queue := c.queue[1..], writerDone := true), None)
    else if c.closed then (c.(written := c.written + [CloseFrame], writerDone := true), Some(CloseFrame))
    else (c, None)
  }

  /** A writer step keeps the client consistent with the same history: nothing is lost or reordered. */
  lemma WriterNextOk(c: Client, sent: seq<Event>, writeOk: bool)
    requires ClientOk(c, sent)
    ensures ClientOk(WriterNext(c, writeOk).0, sent)
  {
    var r := WriterNext(c, writeOk).0;
    if c.queue != [] && writeOk && !c.writerDone {
      var e := c.queue[0];
      var q := c.queue[1..];
      assert r.queue == q && r.written == c.written + [EventFrame(e)] && !r.writerDone;
      EventsOfAppend(c.written, EventFrame(e));
      assert EventsOf(r.written) == EventsOf(c.written) + [e];
      assert c.queue == [e] + q;
      AppendAssoc(EventsOf(c.written), [e], q);
      assert sent == EventsOf(r.written) + r.queue;
    }
    assert |r.queue| <= |c.queue|;
  }

  // ---------------------------------------------------------------- inbound messages

  /** A decoded JSON value; decoding itself is not part of the model. */
  datatype Json =
    | JNull
    | JBool(b: bool)
    | JNumber(n: int)
    | JString(str: string)
    | JArray(items: seq<Json>)
    | JObject(fields: map<string, Json>)

  /** One result of Conn.ReadMessage: an error, or a text whose JSON decoding into an object failed (None) or gave a value. */
  datatype Inbound = ReadFailed | Message(parsed: Option<Json>)

  /** A string member of an object, as the `.(string)` assertion reads it. */
  function StringField(m: Json, key: string): Option<string> {
    if m.JObject? && key in m.fields && m.fields[key].JString? then Some(m.fields[key].str) else None
  }

  /** msg["type"].(string): the message type, "" when absent or not a string. */
  function MessageType(m: Json): string {
    var t := StringField(m, "type");
    if t.Some? then t.value else ""
  }

  /** The role of a register message: data.role when data is an object and role a string. */
  function RoleOf(m: Json): Option<string> {
    if m.JObject? && "data" in m.fields then StringField(m.fields["data"], "role") else None
  }

  datatype Action = SetRole(role: string) | CallTrigger | NoAction

  /** The switch of readPump over one decoded message. */
  function Dispatch(m: Option<Json>): Action {
    if m.None? then NoAction
    else
      var t := MessageType(m.value);
      if t == Register then
        var role := RoleOf(m.value);
        if role.Some? then SetRole(role.value) else NoAction
      else if t == Trigger then CallTrigger
      else NoAction
  }

  /**
   * What each action means: an undecodable message does nothing; a role is
   * set exactly by a register message carrying a string role; a trigger
   * exactly by a trigger message.
   */
  lemma DispatchCases(m: Option<Json>)
    ensures m.None? ==> Dispatch(m) == NoAction
    ensures Dispatch(m).SetRole? <==> m.Some? && MessageType(m.value) == Register && RoleOf(m.value).Some?
    ensures Dispatch(m).SetRole? ==> Dispatch(m).role == RoleOf(m.value).value
    ensures Dispatch(m) == CallTrigger <==> m.Some? && MessageType(m.value) == Trigger
  {
  }

  /** A message naming another type, or none, is ignored. */
  lemma DispatchIgnoresOtherTypes(m: Json)
    requires MessageType(m) != Register && MessageType(m) != Trigger
    ensures Dispatch(Some(m)) == NoAction
  {
  }

  /** {"type":"register","data":{"role":"display"}} makes the client a display. */
  lemma DispatchRegisterExample()
    ensures Dispatch(Some(JObject(map["type" := JString("register"), "data" := JObject(map["role" := JString("display")])])))
      == SetRole("display")
  {
    var data := JObject(map["role" := JString("display")]);
    var m := JObject(map["type" := JString("register"), "data" := data]);
    assert StringField(m, "type") == Some("register");
    assert StringField(data, "role") == Some("display");
  }

  /** A register message whose role is not a string leaves the role alone. */
  lemma DispatchRegisterNumericRole()
    ensures Dispatch(Some(JObject(map["type" := JString("register"), "data" := JObject(map["role" := JNumber(5)])])))
      == NoAction
  {
    var data := JObject(map["role" := JNumber(5)]);
    var m := JObject(map["type" := JString("register"), "data" := data]);
    assert StringField(m, "type") == Some("register");
    assert StringField(data, "role") == None;
  }

  /** How many messages readPump dispatches: those before the first read error. */
  function HandledCount(frames: seq<Inbound>): (n: nat)
    ensures n <= |frames|
    ensures forall i :: 0 <= i < n ==> frames[i].Message?
    ensures n < |frames| ==> frames[n] == ReadFailed
  {
    if frames == [] || frames[0] == ReadFailed then 0
    else
      assert forall i :: 0 < i < |frames| ==> frames[i] == frames[1..][i - 1];
      1 + HandledCount(frames[1..])
  }

  /** Whether the reads end in an error (and so the reader stops). */
  predicate Failed(frames: seq<Inbound>) {
    HandledCount(frames) < |frames|
  }

  /** The count is the length of the longest prefix of messages. */
  lemma HandledCountIsFirstError(frames: seq<Inbound>, i: nat)
    requires i <= |frames| && forall j :: 0 <= j < i ==> frames[j].Message?
    requires i < |frames| ==> frames[i] == ReadFailed
    ensures HandledCount(frames) == i
  {
  }

  /** The role a client has after one message: register with a string role sets it. */
  function NextRole(role: string, parsed: Option<Json>): (r: string)
    ensures Dispatch(parsed).SetRole? ==> r == Dispatch(parsed).role
    ensures !Dispatch(parsed).SetRole? ==> r == role
  {
    match Dispatch(parsed)
    case SetRole(newRole) => newRole
    case _ => role
  }

  /** The role after dispatching the first n reads, starting from role. */
  function RoleAfter(role: string, frames: seq<Inbound>, n: nat): string
    requires n <= |frames|
  {
    if n == 0 then role
    else
      var r := RoleAfter(role, frames, n - 1);
      if frames[n - 1].Message? then NextRole(r, frames[n - 1].parsed) else r
  }

  /** Whether a read is a trigger message. */
  predicate IsTrigger(f: Inbound) {
    f.Message? && Dispatch(f.parsed) == CallTrigger
  }

  /** How many of the first n reads are trigger messages. */
  function TriggersIn(frames: seq<Inbound>, n: nat): nat
    requires n <= |frames|
  {
    if n == 0 then 0
    else TriggersIn(frames, n - 1) + if IsTrigger(frames[n - 1]) then 1 else 0
  }

  /** Reads from m to n that set no role leave the role the first m left. */
  lemma {:induction false} RoleAfterIgnores(role: string, frames: seq<Inbound>, m: nat, n: nat)
    requires m <= n <= |frames|
    requires forall i :: m <= i < n ==> frames[i].Message? ==> !Dispatch(frames[i].parsed).SetRole?
    ensures RoleAfter(role, frames, n) == RoleAfter(role, frames, m)
    decreases n
  {
    if m < n {
      RoleAfterIgnores(role, frames, m, n - 1);
    }
  }

  /** The role is the one the last register message with a string role names. */
  lemma {:induction false} RoleAfterLastRegister(role: string, frames: seq<Inbound>, k: nat, n: nat)
    requires k < n <= |frames| && frames[k].Message? && Dispatch(frames[k].parsed).SetRole?
    requires forall i :: k < i < n ==> frames[i].Message? ==> !Dispatch(frames[i].parsed).SetRole?
    ensures RoleAfter(role, frames, n) == Dispatch(frames[k].parsed).role
  {
    RoleAfterIgnores(role, frames, k + 1, n);
  }

  /** At most every read is a trigger, and all are exactly when the count reaches n. */
  lemma {:induction false} TriggersInBound(frames: seq<Inbound>, n: nat)
    requires n <= |frames|
    ensures TriggersIn(frames, n) <= n
    ensures TriggersIn(frames, n) == n <==> forall i :: 0 <= i < n ==> IsTrigger(frames[i])
    decreases n
  {
    if n > 0 {
      TriggersInBound(frames, n - 1);
    }
  }

  // ---------------------------------------------------------------- the hub

  /** The registered clients in s that keep their registration through a broadcast: those with room. */
  function Kept(m: map<ClientId, Client>, s: set<ClientId>): (r: set<ClientId>)
    ensures forall c :: c in r <==> c in s && c in m && HasRoom(m[c])
  {
    set c | c in s && c in m && HasRoom(m[c])
  }

  /** The channels after the clients in s were each offered e. */
  function Offered(m: map<ClientId, Client>, s: set<ClientId>, e: Event): (r: map<ClientId, Client>)
    ensures r.Keys == m.Keys
    ensures forall c :: c in m ==> r[c] == if c in s then Offer(m[c], e) else m[c]
  {
    map c | c in m :: if c in s then Offer(m[c], e) else m[c]
  }

  /** The send histories after the clients in s were each offered e: extended where it was enqueued. */
  function Extended(h: map<ClientId, seq<Event>>, m: map<ClientId, Client>, s: set<ClientId>, e: Event): (r: map<ClientId, seq<Event>>)
    ensures r.Keys == h.Keys
    ensures forall c :: c in h ==> r[c] == if c in s && c in m && HasRoom(m[c]) then h[c] + [e] else h[c]
  {
    map c | c in h :: if c in s && c in m && HasRoom(m[c]) then h[c] + [e] else h[c]
  }

  /** Offering to one more client c updates exactly c's channel. */
  lemma OfferedStep(m: map<ClientId, Client>, s: set<ClientId>, c: ClientId, e: Event)
    requires c in m && c !in s
    ensures Offered(m, s + {c}, e) == Offered(m, s, e)[c := Offer(m[c], e)]
  {
    var l, r := Offered(m, s + {c}, e), Offered(m, s, e)[c := Offer(m[c], e)];
    assert l.Keys == r.Keys;
    forall d | d in l ensures l[d] == r[d] {
    }
  }

  /** ... and c's history, when c had room. */
  lemma ExtendedStep(h: map<ClientId, seq<Event>>, m: map<ClientId, Client>, s: set<ClientId>, c: ClientId, e: Event)
    requires c in m && c in h && c !in s
    ensures HasRoom(m[c]) ==> Extended(h, m, s + {c}, e) == Extended(h, m, s, e)[c := h[c] + [e]]
    ensures !HasRoom(m[c]) ==> Extended(h, m, s + {c}, e) == Extended(h, m, s, e)
  {
    var l := Extended(h, m, s + {c}, e);
    var r := if HasRoom(m[c]) then Extended(h, m, s, e)[c := h[c] + [e]] else Extended(h, m, s, e);
    assert l.Keys == r.Keys;
    forall d | d in l ensures l[d] == r[d] {
    }
  }

  /** Moving c from one of two disjoint sets to the other keeps their union and disjointness. */
  lemma MoveOne(p: set<ClientId>, d: set<ClientId>, c: ClientId)
    requires c in p && p !! d
    ensures (p - {c}) + (d + {c}) == p + d
    ensures (p - {c}) !! (d + {c})
  {
  }

  lemma RemoveOne(p: set<ClientId>, k: set<ClientId>, c: ClientId)
    requires c !in k
    ensures (p + k) - {c} == (p - {c}) + k
  {
  }

  /** ... and keeps c registered exactly when it had room. */
  lemma KeptStep(m: map<ClientId, Client>, s: set<ClientId>, c: ClientId)
    requires c in m && c !in s
    ensures Kept(m, s + {c}) == if HasRoom(m[c]) then Kept(m, s) + {c} else Kept(m, s)
  {
  }

  /** The hub's invariant, on the values of its fields (see Hub.Valid). */
  ghost predicate HubOk(clients: set<ClientId>, conns: map<ClientId, Client>, history: map<ClientId, seq<Event>>, nextId: nat) {
    && clients <= conns.Keys
    && conns.Keys == history.Keys
    && (forall c :: c in conns ==> c < nextId && ClientOk(conns[c], history[c]))
    && (forall c :: c in clients ==> !conns[c].closed)
  }

  class Hub {
    /** The Clients map: the registered clients. */
    var clients: set<ClientId>
    /** Every client ever connected, registered or not. */
    var conns: map<ClientId, Client>
    var nextId: nat
    /** Whether OnTrigger is non-nil. */
    var hasOnTrigger: bool
    /** How often OnTrigger has been called. */
    var triggerCalls: nat
    /** Every event ever put into each client's send channel, in order. */
    ghost var history: map<ClientId, seq<Event>>
    /** The Role field of every client. */
    var roles: map<ClientId, string>
    /** The clients whose readPump has returned. */
    var readersDone: set<ClientId>

    /**
     * Registered clients have open channels; no channel holds more than its
     * capacity; while a writer runs, what it wrote followed by what is
     * queued is exactly what was sent to the client, in order.
     */
    ghost predicate Valid()
      reads this
    {
      HubOk(clients, conns, history, nextId) && roles.Keys == conns.Keys
    }

    /** NewHub. */
    constructor ()
      ensures Valid()
      ensures clients == {} && conns == map[] && !hasOnTrigger && triggerCalls == 0
    {
      clients := {};
      conns := map[];
      nextId := 0;
      hasOnTrigger := false;
      triggerCalls := 0;
      history := map[];
      roles := map[];
      readersDone := {};
    }

    /** Installing (or removing) the OnTrigger callback. */
    method SetOnTrigger(installed: bool)
      modifies this`hasOnTrigger
      ensures hasOnTrigger == installed
    {
      hasOnTrigger := installed;
    }

    /** ClientCount: the number of registered clients. */
    method ClientCount() returns (n: nat)
      ensures n == |clients|
    {
      n := |clients|;
    }

    /** The register case of Run. */
    method Register(c: ClientId)
      requires Valid() && c in conns && !conns[c].closed
      modifies this`clients
      ensures Valid()
      ensures clients == old(clients) + {c}
    {
      clients := clients + {c};
    }

    /** close(client.Send); closing a closed channel would panic, hence the precondition. */
    method CloseSend(c: ClientId)
      requires c in conns && !conns[c].closed
      modifies this`conns
      ensures conns == old(conns)[c := old(conns)[c].(closed := true)]
    {
      conns := conns[c := conns[c].(closed := true)];
    }

    /** ServeWs after a successful upgrade: a new client with an empty channel of 256 and no role, registered. */
    method Connect() returns (c: ClientId)
      requires Valid()
      modifies this`nextId, this`conns, this`history, this`clients, this`roles
      ensures Valid()
      ensures c !in old(conns)
      ensures conns == old(conns)[c := NewClient()] && history == old(history)[c := []]
      ensures roles == old(roles)[c := ""]
      ensures clients == old(clients) + {c}
    {
      c := nextId;
      nextId := nextId + 1;
      conns := conns[c := NewClient()];
      history := history[c := []];
      roles := roles[c := ""];
      Register(c);
    }

    /** The unregister case of Run: a registered client is removed and its channel closed; otherwise nothing happens. */
    method Unregister(c: ClientId)
      requires Valid()
      modifies this`clients, this`conns
      ensures Valid()
      ensures c in old(clients) ==> clients == old(clients) - {c} && conns == old(conns)[c := old(conns)[c].(closed := true)]
      ensures c !in old(clients) ==> clients == old(clients) && conns == old(conns)
    {
      if c in clients {
        clients := clients - {c};
        CloseSend(c);
      }
    }

    /**
     * The broadcast case of Run: every registered client with room gets the
     * event appended to its queue; every registered client whose queue is
     * full is closed and removed. Nobody else changes.
     */
    method Broadcast(e: Event)
      requires Valid()
      modifies this`clients, this`conns, this`history
      ensures Valid()
      ensures clients == Kept(old(conns), old(clients))
      ensures conns == Offered(old(conns), old(clients), e)
      ensures history == Extended(old(history), old(conns), old(clients), e)
    {
      var pending := clients;
      ghost var done: set<ClientId> := {};
      while pending != {}
        invariant pending !! done && pending + done == old(clients)
        invariant clients == pending + Kept(old(conns), done)
        invariant conns == Offered(old(conns), done, e)
        invariant history == Extended(old(history), old(conns), done, e)
        decreases pending
      {
        var c :| c in pending;
        OfferedStep(old(conns), done, c, e);
        ExtendedStep(old(history), old(conns), done, c, e);
        KeptStep(old(conns), done, c);
        MoveOne(pending, done, c);
        MoveOne(pending, Kept(old(conns), done), c);
        RemoveOne(pending, Kept(old(conns), done), c);
        OfferTo(c, e);
        pending := pending - {c};
        done := done + {c};
      }
      forall c | c in conns
        ensures ClientOk(conns[c], history[c])
      {
        if c in old(clients) {
          OfferKeepsOk(old(conns)[c], old(history)[c], e);
        }
      }
    }

    /** The select on one registered client's channel during a broadcast. */
    method OfferTo(c: ClientId, e: Event)
      requires c in clients && clients <= conns.Keys && c in history && !conns[c].closed
      modifies this`clients, this`conns, this`history
      ensures conns == old(conns)[c := Offer(old(conns)[c], e)]
      ensures HasRoom(old(conns)[c]) ==> clients == old(clients) && history == old(history)[c := old(history)[c] + [e]]
      ensures !HasRoom(old(conns)[c]) ==> clients == old(clients) - {c} && history == old(history)
    {
      var cl := conns[c];
      if HasRoom(cl) {
        conns := conns[c := cl.(queue := cl.queue + [e])];
        history := history[c := history[c] + [e]];
      } else {
        CloseSend(c);
        clients := clients - {c};
      }
    }

    /** One receive of writePump on client c; see WriterNext. */
    method WriterStep(c: ClientId, writeOk: bool) returns (f: Option<Frame>)
      requires Valid() && c in conns && !conns[c].writerDone
      modifies this`conns
      ensures Valid()
      ensures conns == old(conns)[c := WriterNext(old(conns)[c], writeOk).0]
      ensures f == WriterNext(old(conns)[c], writeOk).1
    {
      var cl := conns[c];
      WriterNextOk(cl, history[c], writeOk);
      if cl.queue != [] {
        var e := cl.queue[0];
        if writeOk {
          conns := conns[c := cl.(queue := cl.queue[1..], written := cl.written + [EventFrame(e)])];
          f := Some(EventFrame(e));
        } else {
          conns := conns[c := cl.(queue := cl.queue[1..], writerDone := true)];
          f := None;
        }
      } else if cl.closed {
        conns := conns[c := cl.(written := cl.written + [CloseFrame], writerDone := true)];
        f := Some(CloseFrame);
      } else {
        f := None;
      }
    }

    /**
     * readPump's for loop: dispatch messages until the first read error; i
     * is how many were read.
     */
    method ReadLoop(c: ClientId, frames: seq<Inbound>) returns (i: nat)
      requires c in roles
      modifies this`roles, this`triggerCalls
      ensures i == HandledCount(frames)
      ensures roles == old(roles)[c := RoleAfter(old(roles)[c], frames, i)]
      ensures triggerCalls == old(triggerCalls) + (if hasOnTrigger then TriggersIn(frames, i) else 0)
    {
      i := 0;
      while i < |frames| && frames[i].Message?
        invariant 0 <= i <= |frames|
        invariant forall j :: 0 <= j < i ==> frames[j].Message?
        invariant roles == old(roles)[c := RoleAfter(old(roles)[c], frames, i)]
        invariant triggerCalls == old(triggerCalls) + (if hasOnTrigger then TriggersIn(frames, i) else 0)
      {
        HandleMessage(c, frames[i].parsed);
        i := i + 1;
      }
      HandledCountIsFirstError(frames, i);
    }

    /** One message of readPump's loop, after a successful read. */
    method HandleMessage(c: ClientId, parsed: Option<Json>)
      requires c in roles
      modifies this`roles, this`triggerCalls
      ensures roles == old(roles)[c := NextRole(old(roles)[c], parsed)]
      ensures triggerCalls == old(triggerCalls) + if hasOnTrigger && Dispatch(parsed) == CallTrigger then 1 else 0
    {
      match Dispatch(parsed) {
        case SetRole(role) =>
          roles := roles[c := role];
        case CallTrigger =>
          if hasOnTrigger {
            triggerCalls := triggerCalls + 1;
          }
          assert roles == roles[c := roles[c]];
        case NoAction =>
          assert roles == roles[c := roles[c]];
      }
    }

    /**
     * readPump over the results ReadMessage returns: messages are dispatched
     * until the first read error, which ends the loop, unregisters the
     * client and stops the reader. Without a read error the reader is still
     * running and the registration is untouched.
     */
    method ReadPump(c: ClientId, frames: seq<Inbound>)
      requires Valid() && c in conns && c !in readersDone
      modifies this`conns, this`triggerCalls, this`clients, this`roles, this`readersDone
      ensures Valid()
      ensures roles == old(roles)[c := RoleAfter(old(roles)[c], frames, HandledCount(frames))]
      ensures triggerCalls == old(triggerCalls) + (if hasOnTrigger then TriggersIn(frames, HandledCount(frames)) else 0)
      ensures Failed(frames) ==> readersDone == old(readersDone) + {c}
      ensures Failed(frames) && c in old(clients) ==>
        clients == old(clients) - {c} && conns == old(conns)[c := old(conns)[c].(closed := true)]
      ensures !(Failed(frames) && c in old(clients)) ==> clients == old(clients) && conns == old(conns)
      ensures !Failed(frames) ==> readersDone == old(readersDone)
    {
      var i := ReadLoop(c, frames);
      if i < |frames| {
        Unregister(c);
        readersDone := readersDone + {c};
      }
    }
  }
}
