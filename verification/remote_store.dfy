/**
 The replication bookkeeping of one alt remote store, as seen from one process.

 In the Electron main process ("browser") the store keeps the set of web
 contents that have connected to it, forgets each of them when its web contents
 is destroyed, and fans dispatched actions out to all of them. In a renderer
 the store forwards dispatched actions to the main process. In both roles an
 incoming dispatch message invokes an action by name.

 IPC is replaced by an outbox of messages and by the incoming events of
 `Step`; the alt library is replaced by an `ActionRegistry`.
 */
module RemoteStore {
  import opened Wrappers
  import opened JsSet
  import opened Channels

  /** The id of a renderer's web contents (`webContents.id`). */
  type WebContentsId = int

  /** `process.type`: the store runs in the main process, in a renderer, or in
      some other kind of process, where it does nothing remote. */
  datatype Role = Browser | Renderer | OtherProcess

  /** The three names given to the store's constructor. */
  datatype Names = Names(dispatch: string, actions: string, store: string)

  /** A structured-clone value that can travel as an action argument. */
  datatype Value =
    | Null
    | Bool(b: bool)
    | Num(n: int)
    | Str(s: string)
    | List(items: seq<Value>)
    | Object(fields: map<string, Value>)

  /** The synchronous reply to a connect message, `{}`. */
  const EmptyObject: Value := Object(map[])

  /** Where an outgoing message is addressed. */
  datatype Target = MainProcess | WebContents(id: WebContentsId)

  /** One `send(channel, fnName, args)` call. */
  datatype Message = Message(target: Target, channel: string, fnName: string, args: seq<Value>)

  /** One call `actions[fnName](...args)` made on the store's actions object. */
  datatype Invocation = Invocation(actions: string, fnName: string, args: seq<Value>)

  /** `alt.getActions`: each registered actions name maps to the names of the
      functions its actions object carries. */
  type ActionRegistry = map<string, set<string>>

  /** What calling an action by name can throw. */
  datatype DispatchError =
    | ActionsMissing(actions: string)   // getActions gave undefined
    | NotAFunction(fnName: string)      // actions[fnName] is not callable

  /** The store's replication state. `connected` is `None` (undefined) outside
      the main process; `armed` counts the pending one-shot `destroyed`
      listeners per id; `listening` is the set of channels the constructor
      subscribed to. */
  datatype State = State(
    role: Role,
    names: Names,
    connected: Option<seq<WebContentsId>>,
    armed: multiset<WebContentsId>,
    listening: set<string>,
    outbox: seq<Message>,
    invoked: seq<Invocation>)

  /** The channels the constructor subscribes to in each role. */
  function Listening(role: Role, names: Names): set<string> {
    match role
    case Browser => {ConnectChannel(names.dispatch), DispatchChannel(names.dispatch)}
    case Renderer => {DispatchChannel(names.dispatch)}
    case OtherProcess => {}
  }

  /** The invariant the constructor establishes and every handler keeps: only
      the main process has a connection set, it holds each id at most once,
      and exactly the connected ids have one armed `destroyed` listener. */
  predicate Valid(s: State) {
    && (s.role == Browser <==> s.connected.Some?)
    && (match s.connected
        case Some(ids) => NoDup(ids) && s.armed == multiset(ids)
        case None => s.armed == multiset{})
    && s.listening == Listening(s.role, s.names)
  }

  /** The ids currently connected (none outside the main process). */
  function Members(s: State): set<WebContentsId> {
    match s.connected
    case Some(ids) => Elems(ids)
    case None => {}
  }

  /** The constructor. */
  function Init(role: Role, names: Names): (s: State)
    ensures Valid(s)
    ensures s.role == role && s.names == names
    ensures role == Browser ==> s.connected == Some([])
    ensures role != Browser ==> s.connected == None
    ensures Members(s) == {} && s.armed == multiset{}
    ensures s.outbox == [] && s.invoked == []
    ensures ConnectChannel(names.dispatch) in s.listening <==> role == Browser
    ensures DispatchChannel(names.dispatch) in s.listening <==> role != OtherProcess
    ensures forall c :: c in s.listening ==> Parse(c).Some? && Parse(c).value.1 == names.dispatch
  {
    ParseChannel(Connect, names.dispatch);
    ParseChannel(Dispatch, names.dispatch);
    ChannelInjective(Connect, names.dispatch, Dispatch, names.dispatch);
    State(role, names, if role == Browser then Some([]) else None, multiset{},
          Listening(role, names), [], [])
  }

  /** The handler's effect on the store and the value it leaves in
      `evt.returnValue` (`None` when it leaves it unset). */
  datatype ConnectReply = ConnectReply(state: State, returnValue: Option<Value>)

  /** `_remoteHandleConnect`: registers the sender on its first connect and
      arms a one-shot `destroyed` listener for it. */
  function HandleConnect(s: State, sender: WebContentsId): (r: ConnectReply)
    requires Valid(s)
    ensures Valid(r.state)
    ensures r.returnValue.Some? <==> s.role == Browser
    ensures r.returnValue.Some? ==> r.returnValue.value == EmptyObject
    ensures s.role != Browser ==> r.state == s
    ensures s.role == Browser ==> Members(r.state) == Members(s) + {sender}
    ensures sender in Members(s) ==> r.state == s
    ensures s.role == Browser ==> r.state.armed[sender] == 1
    ensures r.state.armed - multiset{sender} == s.armed - multiset{sender}
    ensures s.connected.Some? ==> s.connected.value <= r.state.connected.value
    ensures r.state.(connected := s.connected, armed := s.armed) == s
  {
    match s.connected
    case None => ConnectReply(s, None)
    case Some(ids) =>
      if sender !in ids then
        var s' := s.(connected := Some(Add(ids, sender)), armed := s.armed + multiset{sender});
        NoDupMultiset(ids, sender);
        ConnectReply(s', Some(EmptyObject))
      else
        NoDupMultiset(ids, sender);
        ConnectReply(s, Some(EmptyObject))
  }

  /** The web contents of `sender` emitted `destroyed`: the listener armed for
      it, if any, deletes it from the connection set and is used up. */
  function HandleDestroyed(s: State, sender: WebContentsId): (s': State)
    requires Valid(s)
    ensures Valid(s')
    ensures Members(s') == Members(s) - {sender}
    ensures s'.armed == s.armed[sender := 0]
    ensures sender !in Members(s) ==> s' == s
    ensures s'.(connected := s.connected, armed := s.armed) == s
  {
    if sender in s.armed then
      var ids := s.connected.value;
      DeleteNoDup(ids, sender);
      DeleteCounts(ids, sender);
      s.(connected := Some(Delete(ids, sender)), armed := s.armed[sender := 0])
    else
      assert s.connected.Some? ==> sender !in s.connected.value;
      s
  }

  /** `_remoteHandleDispatch`: looks the actions object up by the store's
      actions name and calls its function `fnName` with `args`. Neither lookup
      is checked in the source, so each failure is the error JavaScript throws. */
  function HandleDispatch(s: State, registry: ActionRegistry, fnName: string, args: seq<Value>)
    : (r: Result<State, DispatchError>)
    ensures r.Success? <==> s.names.actions in registry && fnName in registry[s.names.actions]
    ensures r.Failure? && s.names.actions !in registry ==> r.error == ActionsMissing(s.names.actions)
    ensures r.Failure? && s.names.actions in registry ==> r.error == NotAFunction(fnName)
    ensures r.Success? ==> s.invoked < r.value.invoked && |r.value.invoked| == |s.invoked| + 1
    ensures r.Success? ==> r.value.invoked[|s.invoked|] == Invocation(s.names.actions, fnName, args)
    ensures r.Success? ==> r.value.(invoked := s.invoked) == s
  {
    if s.names.actions !in registry then Failure(ActionsMissing(s.names.actions))
    else if fnName !in registry[s.names.actions] then Failure(NotAFunction(fnName))
    else Success(s.(invoked := s.invoked + [Invocation(s.names.actions, fnName, args)]))
  }

  /** The store after a dispatch message: what the action call made of it, or
      the store unchanged when the call threw. */
  function AfterDispatch(s: State, registry: ActionRegistry, fnName: string, args: seq<Value>): State {
    match HandleDispatch(s, registry, fnName, args)
    case Success(t) => t
    case Failure(_) => s
  }

  /** The messages the main process sends for one `dispatchToRemote`: one per
      id of the snapshot whose web contents still resolves, in snapshot order. */
  function FanOut(ids: seq<WebContentsId>, live: set<WebContentsId>, channel: string,
                  fnName: string, args: seq<Value>): (msgs: seq<Message>)
    ensures |msgs| <= |ids|
    ensures forall m :: m in msgs ==>
      && m.target.WebContents? && m.target.id in ids && m.target.id in live
      && m.channel == channel && m.fnName == fnName && m.args == args
    decreases |ids|
  {
    if |ids| == 0 then []
    else
      var rest := FanOut(ids[1..], live, channel, fnName, args);
      if ids[0] in live then [Message(WebContents(ids[0]), channel, fnName, args)] + rest
      else rest
  }

  /** `dispatchToRemote`: in the main process, fans out to the live connected
      web contents; in a renderer, sends once to the main process. `live` is
      the set of ids that `webContents.fromId` still resolves. */
  function DispatchToRemote(s: State, fnName: string, args: seq<Value>, live: set<WebContentsId>)
    : (s': State)
    requires Valid(s)
    ensures s'.(outbox := s.outbox) == s
    ensures s.outbox <= s'.outbox
    ensures s.role == Renderer ==>
      s'.outbox == s.outbox + [Message(MainProcess, DispatchChannel(s.names.dispatch), fnName, args)]
    ensures s.role == OtherProcess ==> s' == s
    ensures forall m :: m in s'.outbox[|s.outbox|..] ==>
      m.channel == DispatchChannel(s.names.dispatch) && m.fnName == fnName && m.args == args
    ensures s.role == Browser ==> forall m :: m in s'.outbox[|s.outbox|..] ==>
      m.target.WebContents? && m.target.id in Members(s) && m.target.id in live
  {
    var channel := DispatchChannel(s.names.dispatch);
    match s.role
    case Browser =>
      var sent := FanOut(s.connected.value, live, channel, fnName, args);
      assert (s.outbox + sent)[|s.outbox|..] == sent;
      s.(outbox := s.outbox + sent)
    case Renderer =>
      var sent := [Message(MainProcess, channel, fnName, args)];
      assert (s.outbox + sent)[|s.outbox|..] == sent;
      s.(outbox := s.outbox + sent)
    case OtherProcess => s
  }

  /** The `forEach` over the copied connection set: visits the snapshot in
      order and sends to each id whose web contents resolves. */
  method SendToEach(snapshot: seq<WebContentsId>, live: set<WebContentsId>, channel: string,
                    fnName: string, args: seq<Value>) returns (sent: seq<Message>)
    ensures sent == FanOut(snapshot, live, channel, fnName, args)
  {
    sent := [];
    var i := 0;
    while i < |snapshot|
      invariant 0 <= i <= |snapshot|
      invariant sent + FanOut(snapshot[i..], live, channel, fnName, args)
             == FanOut(snapshot, live, channel, fnName, args)
    {
      assert snapshot[i..][1..] == snapshot[i+1..];
      if snapshot[i] in live {
        sent := sent + [Message(WebContents(snapshot[i]), channel, fnName, args)];
      }
      i := i + 1;
    }
  }

  /** `dispatchToRemote` as the source runs it: in the main process, copy the
      connection set into an array and send to each resolving id in turn. */
  method DispatchToRemoteLoop(s: State, fnName: string, args: seq<Value>, live: set<WebContentsId>)
    returns (s': State)
    requires Valid(s)
    ensures s' == DispatchToRemote(s, fnName, args, live)
  {
    var channel := DispatchChannel(s.names.dispatch);
    if s.role == Browser {
      var sent := SendToEach(s.connected.value, live, channel, fnName, args);
      s' := s.(outbox := s.outbox + sent);
    } else if s.role == Renderer {
      s' := s.(outbox := s.outbox + [Message(MainProcess, channel, fnName, args)]);
    } else {
      s' := s;
    }
  }

  /** Something that happens to the store's process. */
  datatype Event =
    | Ipc(channel: string, sender: WebContentsId, fnName: string, args: seq<Value>)
      // a message arrives from another process
    | Destroyed(sender: WebContentsId)
      // a web contents emits 'destroyed'
    | Local(fnName: string, args: seq<Value>, live: set<WebContentsId>)
      // code in this process calls dispatchToRemote

  /** Handles one event. A message on a channel the store does not listen on
      reaches none of its handlers; a dispatch that throws leaves the store as
      it was and the next event is handled normally. */
  function Step(s: State, registry: ActionRegistry, e: Event): (s': State)
    requires Valid(s)
    ensures Valid(s')
    ensures s'.role == s.role && s'.names == s.names
    ensures s.outbox <= s'.outbox && s.invoked <= s'.invoked
  {
    match e
    case Ipc(channel, sender, fnName, args) =>
      if channel !in s.listening then s
      else if channel == ConnectChannel(s.names.dispatch) then HandleConnect(s, sender).state
      else
        AfterDispatch(s, registry, fnName, args)
    case Destroyed(sender) => HandleDestroyed(s, sender)
    case Local(fnName, args, live) => DispatchToRemote(s, fnName, args, live)
  }

  /** Handles a sequence of events in order. */
  function Run(s: State, registry: ActionRegistry, events: seq<Event>): (s': State)
    requires Valid(s)
    ensures Valid(s')
    ensures s'.role == s.role && s'.names == s.names
    ensures s.outbox <= s'.outbox && s.invoked <= s'.invoked
    decreases |events|
  {
    if |events| == 0 then s
    else Run(Step(s, registry, events[0]), registry, events[1..])
  }
}
