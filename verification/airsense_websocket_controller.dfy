/**
 * AirSense's WebSocket connection supervisor (AirSense/WebSocketController.swift).
 *
 * `WebSocketTask` wraps one socket and turns its delegate callbacks into a
 * state; `WebSocketController` owns at most one task, mirrors its state, and
 * replaces it when the URL changes or when the five-second timer finds it
 * stopped. The timer, the socket and Combine are not modelled: timer ticks and
 * delegate callbacks are inputs, and the controller's `@Published` state is
 * the list of values assigned to it, each of which reaches every subscriber.
 *
 * Tasks are told apart by a creation number. A task discarded by the
 * controller may still receive callbacks, but its state subscription has
 * been cancelled, so they no longer reach the controller.
 */
module AirSenseWebSocketController {
  import opened Wrappers
  import opened UrlModel
  import opened Platform

  // ---------------------------------------------------------------------------
  // WebSocketURL

  /** `WebSocketURL`: a URL the validator accepted. */
  datatype WebSocketUrl = WebSocketUrl(value: Url)

  /** The URL is a `ws`/`wss` URL that `URLComponents` rebuilds unchanged. */
  predicate Conforms(parse: UrlParser, value: Url) {
    var components := parse(value.absoluteString);
    && components.Some?
    && components.value.scheme.Some?
    && IsWebSocketScheme(components.value.scheme.value)
    && components.value.url == Some(value)
  }

  /** `WebSocketURL.init?(value:)`. */
  function MakeWebSocketUrl(parse: UrlParser, value: Url): (r: Option<WebSocketUrl>)
    ensures r.Some? <==> Conforms(parse, value)
    ensures r.Some? ==> r.value.value == value
  {
    var components := parse(value.absoluteString);
    if components.None? then None
    else if components.value.scheme.None? || !IsWebSocketScheme(components.value.scheme.value) then None
    else if components.value.url != Some(value) then None
    else Some(WebSocketUrl(value))
  }

  /** Whatever the parser does, a URL whose scheme it reports as anything but `ws`/`wss` is refused. */
  lemma RejectsOtherSchemes(parse: UrlParser, value: Url, scheme: string)
    requires parse(value.absoluteString).Some?
    requires parse(value.absoluteString).value.scheme == Some(scheme)
    requires !IsWebSocketScheme(scheme)
    ensures MakeWebSocketUrl(parse, value) == None
  {
  }

  /** Validation is stable: an accepted URL is accepted again, to the same value. */
  lemma RevalidationIsIdentity(parse: UrlParser, value: Url)
    requires MakeWebSocketUrl(parse, value).Some?
    ensures MakeWebSocketUrl(parse, MakeWebSocketUrl(parse, value).value.value) == MakeWebSocketUrl(parse, value)
  {
  }

  // ---------------------------------------------------------------------------
  // WebSocketTask

  /** `WebSocketTask.State`; every case carries the task's URL. */
  datatype TaskState =
    | Initialized(url: WebSocketUrl)
    | Connecting(url: WebSocketUrl)
    | Connected(url: WebSocketUrl)
    | Disconnected(url: WebSocketUrl, closeCode: CloseCode)
    | Finished(url: WebSocketUrl, error: Option<PlatformError>)

  /** A `WebSocketTask`: its creation number, its URL and its published state. */
  datatype Task = Task(id: nat, url: WebSocketUrl, state: TaskState)

  /** The URLSession delegate callbacks a task receives. */
  datatype SocketEvent =
    | DidCreateTask
    | DidOpen
    | DidClose(closeCode: CloseCode)
    | DidComplete(error: Option<PlatformError>)

  /** `WebSocketTask.init(with:)`: the socket is resumed, the state starts as `initialized`. */
  function NewTask(id: nat, url: WebSocketUrl): (t: Task)
    ensures t.id == id && t.url == url && t.state.url == url
    ensures !IsStopped(t) && !t.state.Connected?
  {
    Task(id, url, Initialized(url))
  }

  /** `isStopped`. */
  predicate IsStopped(t: Task) {
    match t.state
    case Disconnected(_, _) => true
    case Finished(_, _) => true
    case _ => false
  }

  /** A task is stopped exactly when it is neither initialised, connecting nor connected. */
  lemma StoppedIffNotLive(t: Task)
    ensures IsStopped(t) <==> !(t.state.Initialized? || t.state.Connecting? || t.state.Connected?)
  {
  }

  /** The delegate methods: each one sets the state, whatever it was before. */
  function HandleEvent(t: Task, e: SocketEvent): (r: Task)
    ensures r.id == t.id && r.url == t.url && r.state.url == t.url
    ensures e.DidCreateTask? <==> r.state.Connecting?
    ensures e.DidOpen? <==> r.state.Connected?
    ensures e.DidClose? <==> r.state.Disconnected?
    ensures e.DidClose? ==> r.state.closeCode == e.closeCode
    ensures e.DidComplete? <==> r.state.Finished?
    ensures e.DidComplete? ==> r.state.error == e.error
    ensures IsStopped(r) <==> e.DidClose? || e.DidComplete?
  {
    match e
    case DidCreateTask => t.(state := Connecting(t.url))
    case DidOpen => t.(state := Connected(t.url))
    case DidClose(code) => t.(state := Disconnected(t.url, code))
    case DidComplete(error) => t.(state := Finished(t.url, error))
  }

  /** The state a callback leaves does not depend on the state before it. */
  lemma HandleEventForgetsPriorState(t1: Task, t2: Task, e: SocketEvent)
    requires t1.id == t2.id && t1.url == t2.url
    ensures HandleEvent(t1, e) == HandleEvent(t2, e)
  {
  }

  // ---------------------------------------------------------------------------
  // WebSocketController

  /** `WebSocketController.State`. */
  datatype ControllerState = NoTask | HasTask(taskState: TaskState)

  /**
   * The controller: its task, its published state, whether the state
   * subscription to the task is live, and how many tasks it has created.
   */
  datatype Controller = Controller(task: Option<Task>, state: ControllerState, synced: bool, created: nat)

  /** A message handed to the socket of task `taskId`. */
  datatype Delivery = Delivery(taskId: nat, message: Message)

  /** The result of one operation: the new controller and every value assigned to `state`, in order. */
  datatype Update = Update(controller: Controller, published: seq<ControllerState>)

  /**
   * The controller's invariant: the state mirrors the task (or is `noTask`),
   * the subscription is live exactly when there is a task, and the task is
   * the most recently created one.
   */
  predicate Valid(c: Controller) {
    && (c.task.None? ==> c.state == NoTask)
    && (c.task.Some? ==> c.state == HasTask(c.task.value.state))
    && c.synced == c.task.Some?
    && (c.task.Some? ==> c.task.value.id + 1 == c.created && c.task.value.state.url == c.task.value.url)
  }

  /** `WebSocketController.init`: no task yet. */
  function Init(): (c: Controller)
    ensures Valid(c) && c.task.None? && c.state == NoTask && c.created == 0
  {
    Controller(None, NoTask, false, 0)
  }

  /**
   * `startTask(with:)`: with no task, creates one and subscribes to it. The
   * state is assigned twice: directly, and by the subscription, which
   * delivers the task's current state as soon as it is made.
   */
  function StartTask(c: Controller, url: WebSocketUrl): (u: Update)
    requires Valid(c)
    ensures Valid(u.controller)
    ensures c.task.Some? ==> u == Update(c, [])
    ensures c.task.None? ==>
      && u.controller.created == c.created + 1
      && u.controller.task == Some(NewTask(c.created, url))
      && u.published == [HasTask(Initialized(url)), HasTask(Initialized(url))]
  {
    if c.task.Some? then Update(c, [])
    else
      var t := NewTask(c.created, url);
      Update(Controller(Some(t), HasTask(t.state), true, c.created + 1), [HasTask(t.state), HasTask(t.state)])
  }

  /** `discardTask()`: drops the subscription, publishes `noTask`, drops the task. */
  function DiscardTask(c: Controller): (u: Update)
    requires Valid(c)
    ensures Valid(u.controller)
    ensures u.controller.task.None? && u.controller.state == NoTask && !u.controller.synced
    ensures u.controller.created == c.created
    ensures u.published == [NoTask]
  {
    Update(Controller(None, NoTask, false, c.created), [NoTask])
  }

  /** Discard, then start: the shared tail of `updateTask` and `resumeTask`. */
  function Replace(c: Controller, url: WebSocketUrl): (u: Update)
    requires Valid(c)
    ensures Valid(u.controller)
    ensures u.controller.task == Some(NewTask(c.created, url))
    ensures u.controller.created == c.created + 1
    ensures u.published == [NoTask, HasTask(Initialized(url)), HasTask(Initialized(url))]
  {
    var d := DiscardTask(c);
    var s := StartTask(d.controller, url);
    Update(s.controller, d.published + s.published)
  }

  /** `updateTask(with:)`: nothing happens for the current URL; otherwise the task is replaced. */
  function UpdateTask(c: Controller, url: WebSocketUrl): (u: Update)
    requires Valid(c)
    ensures Valid(u.controller)
    ensures c.task.Some? && c.task.value.url == url ==> u == Update(c, [])
    ensures !(c.task.Some? && c.task.value.url == url) ==>
      && u.controller.created == c.created + 1
      && u.controller.task.Some?
      && u.controller.task.value.id == c.created
      && u.controller.task.value.url == url
      && u.controller.state == HasTask(Initialized(url))
  {
    if c.task.Some? && c.task.value.url == url then Update(c, [])
    else Replace(c, url)
  }

  /** `resumeTask()`, the timer's handler: only a stopped task is replaced, by one to the same URL. */
  function ResumeTask(c: Controller): (u: Update)
    requires Valid(c)
    ensures Valid(u.controller)
    ensures c.task.None? || !IsStopped(c.task.value) ==> u == Update(c, [])
    ensures c.task.Some? && IsStopped(c.task.value) ==>
      && u.controller.created == c.created + 1
      && u.controller.task == Some(NewTask(c.created, c.task.value.url))
  {
    if c.task.None? || !IsStopped(c.task.value) then Update(c, [])
    else Replace(c, c.task.value.url)
  }

  /**
   * A delegate callback of task `taskId`. The current task's new state is
   * mirrored through the subscription; any other task is no longer observed.
   */
  function OnSocketEvent(c: Controller, taskId: nat, e: SocketEvent): (u: Update)
    requires Valid(c)
    ensures Valid(u.controller)
    ensures u.controller.created == c.created
    ensures c.task.Some? && c.task.value.id == taskId ==>
      && u.controller.task == Some(HandleEvent(c.task.value, e))
      && u.published == [u.controller.state]
    ensures !(c.task.Some? && c.task.value.id == taskId) ==> u == Update(c, [])
  {
    if c.task.Some? && c.task.value.id == taskId then
      var t := HandleEvent(c.task.value, e);
      Update(c.(task := Some(t), state := HasTask(t.state)), [HasTask(t.state)])
    else Update(c, [])
  }

  /** `send(_:)`: hands the message to the current task's socket, if there is a task. */
  function Send(c: Controller, m: Message): (d: Option<Delivery>)
    ensures d.Some? <==> c.task.Some?
    ensures d.Some? ==> d.value == Delivery(c.task.value.id, m)
  {
    if c.task.Some? then Some(Delivery(c.task.value.id, m)) else None
  }

  // ---------------------------------------------------------------------------
  // Runs

  /** The operations a caller, the timer and the socket can apply to the controller. */
  datatype Input =
    | Start(url: WebSocketUrl)
    | Discard
    | UpdateUrl(url: WebSocketUrl)
    | TimerTick
    | Socket(taskId: nat, event: SocketEvent)

  function Step(c: Controller, i: Input): (u: Update)
    requires Valid(c)
    ensures Valid(u.controller)
    ensures c.created <= u.controller.created <= c.created + 1
  {
    match i
    case Start(url) => StartTask(c, url)
    case Discard => DiscardTask(c)
    case UpdateUrl(url) => UpdateTask(c, url)
    case TimerTick => ResumeTask(c)
    case Socket(id, e) => OnSocketEvent(c, id, e)
  }

  /** Applies the inputs in order, collecting every published state. */
  function Run(c: Controller, inputs: seq<Input>): (u: Update)
    requires Valid(c)
    ensures Valid(u.controller)
    decreases |inputs|
  {
    if |inputs| == 0 then Update(c, [])
    else
      var first := Step(c, inputs[0]);
      var rest := Run(first.controller, inputs[1..]);
      Update(rest.controller, first.published + rest.published)
  }

  /** Every input creates at most one task, so a run of n inputs creates at most n. */
  lemma {:induction false} RunCreatesAtMostOneTaskPerInput(c: Controller, inputs: seq<Input>)
    requires Valid(c)
    ensures c.created <= Run(c, inputs).controller.created <= c.created + |inputs|
    decreases |inputs|
  {
    if |inputs| > 0 {
      RunCreatesAtMostOneTaskPerInput(Step(c, inputs[0]).controller, inputs[1..]);
    }
  }

  /** Setting the same URL twice creates one task: the second call does nothing. */
  lemma UpdateTaskIsIdempotent(c: Controller, url: WebSocketUrl)
    requires Valid(c)
    ensures UpdateTask(UpdateTask(c, url).controller, url) == Update(UpdateTask(c, url).controller, [])
  {
  }

  /**
   * Recovery: once the current task closes or completes, the next tick leaves
   * exactly one new task, to the same URL. Observers see `noTask` in
   * between, because the tick goes through `discardTask()`.
   */
  lemma TickAfterStopReconnects(c: Controller, e: SocketEvent)
    requires Valid(c) && c.task.Some?
    requires e.DidClose? || e.DidComplete?
    ensures var stopped := OnSocketEvent(c, c.task.value.id, e).controller;
            var ticked := ResumeTask(stopped);
            && ticked.controller.created == c.created + 1
            && ticked.controller.task.Some?
            && ticked.controller.task.value.url == c.task.value.url
            && ticked.controller.task.value.id == c.created
            && ticked.published[0] == NoTask
  {
  }

  /** A callback from a discarded task changes nothing. */
  lemma StaleCallbackIgnored(c: Controller, url: WebSocketUrl, e: SocketEvent)
    requires Valid(c) && c.task.Some? && c.task.value.url != url
    ensures var u := UpdateTask(c, url).controller;
            OnSocketEvent(u, c.task.value.id, e) == Update(u, [])
  {
  }
}
