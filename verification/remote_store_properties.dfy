/**
 Properties of the remote store model that relate several calls: fan-out
 counts, idempotence and inverses of the connection handlers, the connection
 life cycle over a run of events, isolation of failed dispatches, and how the
 messages one process sends are handled by the other.
 */
module RemoteStoreProperties {
  import opened Wrappers
  import opened JsSet
  import opened Channels
  import opened RemoteStore

  /** Every id of a duplicate-free snapshot that resolves receives exactly one
      message, and no other id receives any. */
  lemma {:induction false} FanOutOncePerId(ids: seq<WebContentsId>, live: set<WebContentsId>, channel: string,
                                           fnName: string, args: seq<Value>, id: WebContentsId)
    requires NoDup(ids)
    ensures multiset(FanOut(ids, live, channel, fnName, args))[Message(WebContents(id), channel, fnName, args)]
         == if id in ids && id in live then 1 else 0
    decreases |ids|
  {
    if |ids| > 0 {
      var rest := ids[1..];
      assert ids == [ids[0]] + rest;
      NoDupTail(ids);
      FanOutOncePerId(rest, live, channel, fnName, args, id);
    }
  }

  /** Adding a fresh id to a set of ids adds one to the number of them that
      resolve exactly when the fresh one does. */
  lemma LiveCardInsert(x: WebContentsId, rest: set<WebContentsId>, live: set<WebContentsId>)
    requires x !in rest
    ensures |({x} + rest) * live| == |rest * live| + if x in live then 1 else 0
  {
    if x in live {
      assert ({x} + rest) * live == {x} + rest * live;
    } else {
      assert ({x} + rest) * live == rest * live;
    }
  }

  /** A duplicate-free snapshot yields one message per id that resolves. */
  lemma {:induction false} FanOutCount(ids: seq<WebContentsId>, live: set<WebContentsId>, channel: string,
                                       fnName: string, args: seq<Value>)
    requires NoDup(ids)
    ensures |FanOut(ids, live, channel, fnName, args)| == |Elems(ids) * live|
    decreases |ids|
  {
    if |ids| > 0 {
      var rest := ids[1..];
      NoDupTail(ids);
      FanOutCount(rest, live, channel, fnName, args);
      assert ids == [ids[0]] + rest;
      assert Elems(ids) == {ids[0]} + Elems(rest);
      LiveCardInsert(ids[0], Elems(rest), live);
    }
  }

  /** In the main process, `dispatchToRemote` sends exactly one message to each
      connected id whose web contents resolves and none to any other id, all
      on the store's dispatch channel with the given name and arguments. It
      never sends more messages than the connection set has entries. */
  lemma BrowserFanOut(s: State, fnName: string, args: seq<Value>, live: set<WebContentsId>)
    requires Valid(s) && s.role == Browser
    ensures var sent := DispatchToRemote(s, fnName, args, live).outbox[|s.outbox|..];
      && |sent| == |Members(s) * live|
      && |sent| <= |Members(s)| == |s.connected.value|
      && forall id :: multiset(sent)[Message(WebContents(id), DispatchChannel(s.names.dispatch), fnName, args)]
                   == if id in Members(s) && id in live then 1 else 0
  {
    var ids := s.connected.value;
    var channel := DispatchChannel(s.names.dispatch);
    var sent := DispatchToRemote(s, fnName, args, live).outbox[|s.outbox|..];
    assert sent == FanOut(ids, live, channel, fnName, args);
    FanOutCount(ids, live, channel, fnName, args);
    NoDupCard(ids);
    forall id: WebContentsId
      ensures multiset(sent)[Message(WebContents(id), channel, fnName, args)]
           == if id in Members(s) && id in live then 1 else 0
    {
      FanOutOncePerId(ids, live, channel, fnName, args, id);
    }
  }

  /** A repeated connect from the same sender changes nothing and gives the
      same reply. */
  lemma ConnectIdempotent(s: State, sender: WebContentsId)
    requires Valid(s)
    ensures HandleConnect(HandleConnect(s, sender).state, sender) == HandleConnect(s, sender)
  {
  }

  /** The first connect of a sender in the main process appends it to the end
      of the connection set, after every id connected before it. */
  lemma ConnectAppends(s: State, sender: WebContentsId)
    requires Valid(s) && s.role == Browser
    requires sender !in Members(s)
    ensures HandleConnect(s, sender).state.connected == Some(s.connected.value + [sender])
  {
  }

  /** A second `destroyed` signal for the same id changes nothing. */
  lemma DestroyedIdempotent(s: State, sender: WebContentsId)
    requires Valid(s)
    ensures HandleDestroyed(HandleDestroyed(s, sender), sender) == HandleDestroyed(s, sender)
  {
  }

  /** The `destroyed` signal removes the id from the connection set and keeps
      the others in their insertion order. */
  lemma DestroyedKeepsOrder(s: State, k: nat)
    requires Valid(s) && s.role == Browser
    requires k < |s.connected.value|
    ensures var ids := s.connected.value;
      HandleDestroyed(s, ids[k]).connected == Some(ids[..k] + ids[k+1..])
  {
    DeleteAt(s.connected.value, k);
  }

  /** Connecting a new sender and then destroying its web contents restores
      the store exactly, listeners included. */
  lemma ConnectThenDestroyed(s: State, sender: WebContentsId)
    requires Valid(s) && s.role == Browser
    requires sender !in Members(s)
    ensures HandleDestroyed(HandleConnect(s, sender).state, sender) == s
  {
    var ids := s.connected.value;
    var t := HandleConnect(s, sender).state;
    ConnectAppends(s, sender);
    assert t.connected == Some(ids + [sender]);
    assert t.armed == s.armed + multiset{sender};
    NoDupMultiset(ids, sender);
    assert s.armed[sender] == 0;
    assert t.armed[sender := 0] == s.armed;
    DeleteOnce(ids, sender, []);
    assert ids + [sender] + [] == ids + [sender];
    assert Delete(ids + [sender], sender) == ids;
  }

  /** A dispatch message is accepted or refused by the action lookup alone:
      the sender, the role and the connection set play no part. */
  lemma DispatchIgnoresConnections(s: State, t: State, registry: ActionRegistry,
                                   fnName: string, args: seq<Value>)
    requires s.names == t.names
    ensures HandleDispatch(s, registry, fnName, args).Success?
        == HandleDispatch(t, registry, fnName, args).Success?
  {
  }

  /** Whether `id` is connected after a run of events in the main process,
      following the life cycle "connect adds, destroyed removes". */
  function ConnectedAfter(dispatchName: string, was: bool, events: seq<Event>, id: WebContentsId): bool
    decreases |events|
  {
    if |events| == 0 then was
    else
      var now :=
        match events[0]
        case Ipc(channel, sender, _, _) => if channel == ConnectChannel(dispatchName) && sender == id then true else was
        case Destroyed(sender) => if sender == id then false else was
        case Local(_, _, _) => was;
      ConnectedAfter(dispatchName, now, events[1..], id)
  }

  /** One event moves `id` along its life cycle and leaves the other ids alone. */
  lemma StepMembership(s: State, registry: ActionRegistry, e: Event, id: WebContentsId)
    requires Valid(s) && s.role == Browser
    ensures (id in Members(Step(s, registry, e)))
        <==> ConnectedAfter(s.names.dispatch, id in Members(s), [e], id)
  {
  }

  /** In the main process, an id is connected after a run of events exactly
      when the life cycle says so: its last connect was not followed by a
      `destroyed` signal for it. */
  lemma {:induction false} RunMembership(s: State, registry: ActionRegistry, events: seq<Event>, id: WebContentsId)
    requires Valid(s) && s.role == Browser
    ensures (id in Members(Run(s, registry, events)))
        <==> ConnectedAfter(s.names.dispatch, id in Members(s), events, id)
    decreases |events|
  {
    if |events| > 0 {
      var t := Step(s, registry, events[0]);
      StepMembership(s, registry, events[0], id);
      RunMembership(t, registry, events[1..], id);
    }
  }

  /** Handling two runs of events one after the other is handling their
      concatenation. */
  lemma {:induction false} RunAppend(s: State, registry: ActionRegistry, first: seq<Event>, second: seq<Event>)
    requires Valid(s)
    ensures Run(s, registry, first + second) == Run(Run(s, registry, first), registry, second)
    decreases |first|
  {
    if |first| > 0 {
      assert (first + second)[0] == first[0];
      assert (first + second)[1..] == first[1..] + second;
      RunAppend(Step(s, registry, first[0]), registry, first[1..], second);
    } else {
      assert first + second == second;
    }
  }

  /** A dispatch message that throws does not stop the events after it from
      being handled: wherever it arrives in a run, the run ends as if it had
      never arrived. */
  lemma FailedDispatchIsolated(s: State, registry: ActionRegistry, sender: WebContentsId,
                               fnName: string, args: seq<Value>, before: seq<Event>, after: seq<Event>)
    requires Valid(s)
    requires HandleDispatch(s, registry, fnName, args).Failure?
    ensures var bad := Ipc(DispatchChannel(s.names.dispatch), sender, fnName, args);
      Run(s, registry, before + [bad] + after) == Run(s, registry, before + after)
  {
    var bad := Ipc(DispatchChannel(s.names.dispatch), sender, fnName, args);
    var t := Run(s, registry, before);
    RunAppend(s, registry, before + [bad], after);
    RunAppend(s, registry, before, [bad]);
    RunAppend(s, registry, before, after);
    ChannelInjective(Dispatch, s.names.dispatch, Connect, s.names.dispatch);
    assert Step(t, registry, bad) == t;
    assert Run(t, registry, [bad]) == t by {
      assert [bad][1..] == [];
    }
  }

  /** The event is a connect message from `id` to the store named `dispatchName`. */
  predicate IsConnectFrom(dispatchName: string, e: Event, id: WebContentsId) {
    e.Ipc? && e.channel == ConnectChannel(dispatchName) && e.sender == id
  }

  /** Once disconnected, an id stays disconnected until it connects again. */
  lemma {:induction false} StaysDisconnected(dispatchName: string, events: seq<Event>, id: WebContentsId)
    requires forall i :: 0 <= i < |events| ==> !IsConnectFrom(dispatchName, events[i], id)
    ensures !ConnectedAfter(dispatchName, false, events, id)
    decreases |events|
  {
    if |events| > 0 {
      assert !IsConnectFrom(dispatchName, events[0], id);
      assert forall i :: 0 <= i < |events[1..]| ==> events[1..][i] == events[i + 1];
      StaysDisconnected(dispatchName, events[1..], id);
    }
  }

  /** After the `destroyed` signal for `id`, no broadcast reaches `id` again
      unless it sends a new connect message, even though it never disconnected
      itself. */
  lemma NoSendAfterDestroyed(s: State, registry: ActionRegistry, id: WebContentsId, later: seq<Event>,
                             fnName: string, args: seq<Value>, live: set<WebContentsId>)
    requires Valid(s) && s.role == Browser
    requires forall i :: 0 <= i < |later| ==> !IsConnectFrom(s.names.dispatch, later[i], id)
    ensures var t := Run(s, registry, [Destroyed(id)] + later);
      && id !in Members(t)
      && forall m :: m in DispatchToRemote(t, fnName, args, live).outbox[|t.outbox|..] ==>
           m.target != WebContents(id)
  {
    var events := [Destroyed(id)] + later;
    RunMembership(s, registry, events, id);
    assert events[0] == Destroyed(id) && events[1..] == later;
    StaysDisconnected(s.names.dispatch, later, id);
  }

  /** The message an outbox entry becomes when it arrives at its target. */
  function Deliver(m: Message, from: WebContentsId): Event {
    Ipc(m.channel, from, m.fnName, m.args)
  }

  /** A message the main process fans out, delivered to a renderer whose store
      has the same names, invokes the same action with the same arguments
      there (or throws exactly as a local call would). */
  lemma FanOutReplayedInRenderer(b: State, r: State, registry: ActionRegistry, fnName: string,
                                 args: seq<Value>, live: set<WebContentsId>, m: Message)
    requires Valid(b) && b.role == Browser
    requires Valid(r) && r.role == Renderer && r.names == b.names
    requires m in DispatchToRemote(b, fnName, args, live).outbox[|b.outbox|..]
    ensures m.target.WebContents?
    ensures Step(r, registry, Deliver(m, 0)) == AfterDispatch(r, registry, fnName, args)
  {
  }

  /** A renderer's `dispatchToRemote` message, delivered to the main process's
      store with the same names, reaches its dispatch handler, never its
      connect handler, and leaves the connection set alone. */
  lemma RendererSendHandledByMain(r: State, b: State, registry: ActionRegistry, fnName: string,
                                  args: seq<Value>, sender: WebContentsId)
    requires Valid(r) && r.role == Renderer
    requires Valid(b) && b.role == Browser && b.names == r.names
    ensures var m := DispatchToRemote(r, fnName, args, {}).outbox[|r.outbox|];
      && m.target == MainProcess
      && Step(b, registry, Deliver(m, sender)) == AfterDispatch(b, registry, fnName, args)
      && Members(Step(b, registry, Deliver(m, sender))) == Members(b)
  {
  }

  /** Two renderers `a` and `b` are connected; `a`'s web contents is destroyed
      without any message from it. Afterwards only `b` is connected, and the
      next broadcast appends one message, to `b` alone. */
  lemma DestroyedThenBroadcast(s: State, fnName: string, args: seq<Value>,
                               a: WebContentsId, b: WebContentsId, live: set<WebContentsId>)
    requires Valid(s) && s.role == Browser
    requires s.connected == Some([a, b])
    requires a != b && b in live
    ensures Members(HandleDestroyed(s, a)) == {b} && |Members(HandleDestroyed(s, a))| == 1
    ensures DispatchToRemote(HandleDestroyed(s, a), fnName, args, live).outbox
         == s.outbox + [Message(WebContents(b), DispatchChannel(s.names.dispatch), fnName, args)]
  {
  }
}
