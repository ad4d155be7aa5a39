/**
 * HeadphoneMotionPub's WebSocket connection supervisor
 * (HeadphoneMotionPub/WebSocketTaskController.swift).
 *
 * An earlier revision than AirSense's: the validator takes a string, task
 * states carry no close code or error, and the timer only replaces a task in
 * the `disconnected` state, without ever publishing `noTask` in between.
 * Timer ticks and socket callbacks are inputs; the published state is the
 * list of values assigned to it.
 */
module HmpWebSocketTaskController {
  import opened Wrappers
  import opened UrlModel
  import opened Platform

  // ---------------------------------------------------------------------------
  // WebSocketURL

  /** `WebSocketURL`: the parsed URL of an accepted string. */
  datatype WebSocketUrl = WebSocketUrl(url: Url)

  /** The string parses, has a `ws`/`wss` scheme, and the parsed URL prints back as the same string. */
  predicate Conforms(parse: UrlParser, s: string) {
    var components := parse(s);
    && components.Some?
    && components.value.scheme.Some?
    && IsWebSocketScheme(components.value.scheme.value)
    && components.value.url.Some?
    && components.value.url.value.absoluteString == s
  }

  /** `WebSocketURL.init?(string:)`. */
  function MakeWebSocketUrl(parse: UrlParser, s: string): (r: Option<WebSocketUrl>)
    ensures r.Some? <==> Conforms(parse, s)
    ensures r.Some? ==> r.value.url == parse(s).value.url.value
  {
    var components := parse(s);
    if components.None? then None
    else if components.value.scheme.None? || !IsWebSocketScheme(components.value.scheme.value) then None
    else if components.value.url.None? || components.value.url.value.absoluteString != s then None
    else Some(WebSocketUrl(components.value.url.value))
  }

  /** `description`. */
  function Description(w: WebSocketUrl): string {
    w.url.absoluteString
  }

  /** An accepted string is exactly what the URL describes itself as, and describing it is accepted again. */
  lemma DescriptionRoundTrip(parse: UrlParser, s: string)
    requires MakeWebSocketUrl(parse, s).Some?
    ensures Description(MakeWebSocketUrl(parse, s).value) == s
    ensures MakeWebSocketUrl(parse, Description(MakeWebSocketUrl(parse, s).value)) == MakeWebSocketUrl(parse, s)
  {
  }

  /** Whatever the parser does, a string it reports with another scheme is refused. */
  lemma RejectsOtherSchemes(parse: UrlParser, s: string, scheme: string)
    requires parse(s).Some? && parse(s).value.scheme == Some(scheme)
    requires !IsWebSocketScheme(scheme)
    ensures MakeWebSocketUrl(parse, s) == None
  {
  }

  // ---------------------------------------------------------------------------
  // WebSocketTask

  /** `WebSocketTask.State`. */
  datatype TaskState =
    | Idle
    | AttemptingConnection(url: WebSocketUrl)
    | Connected(url: WebSocketUrl)
    | Disconnected

  /** A `WebSocketTask`: creation number, URL and published state. */
  datatype Task = Task(id: nat, url: WebSocketUrl, state: TaskState)

  /** The URLSession delegate callbacks a task receives; their arguments are ignored. */
  datatype SocketEvent = DidCreateTask | DidOpen | DidClose | DidComplete

  /** The URL a state mentions, if it mentions one. */
  function StateUrl(s: TaskState): Option<WebSocketUrl> {
    if s.AttemptingConnection? || s.Connected? then Some(s.url) else None
  }

  /** `WebSocketTask.init(with:)`: a new task starts `idle`. */
  function NewTask(id: nat, url: WebSocketUrl): (t: Task)
    ensures t.id == id && t.url == url && t.state == Idle
  {
    Task(id, url, Idle)
  }

  /** The delegate methods. */
  function HandleEvent(t: Task, e: SocketEvent): (r: Task)
    ensures r.id == t.id && r.url == t.url
    ensures StateUrl(r.state) == None || StateUrl(r.state) == Some(t.url)
    ensures e.DidCreateTask? <==> r.state == AttemptingConnection(t.url)
    ensures e.DidOpen? <==> r.state == Connected(t.url)
    ensures e.DidClose? || e.DidComplete? <==> r.state == Disconnected
    ensures r.state != Idle
  {
    match e
    case DidCreateTask => t.(state := AttemptingConnection(t.url))
    case DidOpen => t.(state := Connected(t.url))
    case DidClose => t.(state := Disconnected)
    case DidComplete => t.(state := Disconnected)
  }

  /** Closing and completing are indistinguishable in this revision. */
  lemma CloseAndCompleteAgree(t: Task)
    ensures HandleEvent(t, DidClose) == HandleEvent(t, DidComplete)
  {
  }

  // ---------------------------------------------------------------------------
  // WebSocketTaskController

  /** `WebSocketTaskController.State`. */
  datatype ControllerState = NoTask | HasTask(taskState: TaskState)

  /** The controller: its task, its state, whether the subscription is live, how many tasks it created. */
  datatype Controller = Controller(task: Option<Task>, state: ControllerState, synced: bool, created: nat)

  datatype Delivery = Delivery(taskId: nat, message: Message)

  datatype Update = Update(controller: Controller, published: seq<ControllerState>)

  /** The state mirrors the most recently created task, whose state only names its own URL. */
  predicate Valid(c: Controller) {
    && (c.task.None? ==> c.state == NoTask)
    && (c.task.Some? ==> c.state == HasTask(c.task.value.state))
    && c.synced == c.task.Some?
    && (c.task.Some? ==>
          && c.task.value.id + 1 == c.created
          && (StateUrl(c.task.value.state) == None || StateUrl(c.task.value.state) == Some(c.task.value.url)))
  }

  /** `WebSocketTaskController.init`: starts in `noTask`. */
  function Init(): (c: Controller)
    ensures Valid(c) && c.task.None? && c.state == NoTask && c.created == 0
  {
    Controller(None, NoTask, false, 0)
  }

  /**
   * Drops the current task and subscription, creates a task to `url`, assigns
   * the state, and subscribes (which assigns the same state once more).
   */
  function Install(c: Controller, url: WebSocketUrl): (u: Update)
    requires Valid(c)
    ensures Valid(u.controller)
    ensures u.controller.task == Some(NewTask(c.created, url))
    ensures u.controller.created == c.created + 1
    ensures u.controller.state == HasTask(Idle)
    ensures u.published == [HasTask(Idle), HasTask(Idle)]
  {
    var t := NewTask(c.created, url);
    Update(Controller(Some(t), HasTask(t.state), true, c.created + 1), [HasTask(t.state), HasTask(t.state)])
  }

  /** `changeTask(with:)`: a no-op for the current URL; otherwise the task is replaced. */
  function ChangeTask(c: Controller, url: WebSocketUrl): (u: Update)
    requires Valid(c)
    ensures Valid(u.controller)
    ensures c.task.Some? && c.task.value.url == url ==> u == Update(c, [])
    ensures !(c.task.Some? && c.task.value.url == url) ==>
      && u.controller.created == c.created + 1
      && u.controller.task.Some?
      && u.controller.task.value.id == c.created
      && u.controller.task.value.url == url
      && u.controller.state == HasTask(Idle)
      && NoTask !in u.published
  {
    if c.task.Some? && c.task.value.url == url then Update(c, [])
    else Install(c, url)
  }

  /** `resumeTask()`, the timer's handler: only a `disconnected` task is replaced, by one to the same URL. */
  function ResumeTask(c: Controller): (u: Update)
    requires Valid(c)
    ensures Valid(u.controller)
    ensures NoTask !in u.published
    ensures c.task.Some? && c.task.value.state == Disconnected ==>
      && u.controller.created == c.created + 1
      && u.controller.task == Some(NewTask(c.created, c.task.value.url))
    ensures !(c.task.Some? && c.task.value.state == Disconnected) ==> u == Update(c, [])
  {
    match c.task
    case Some(t) =>
      (match t.state
       case Disconnected => Install(c, t.url)
       case _ => Update(c, []))
    case None => Update(c, [])
  }

  /** A delegate callback of task `taskId`; only the current task is still observed. */
  function OnSocketEvent(c: Controller, taskId: nat, e: SocketEvent): (u: Update)
    requires Valid(c)
    ensures Valid(u.controller)
    ensures u.controller.created == c.created
    ensures c.task.Some? && c.task.value.id == taskId ==>
      && u.controller.task == Some(HandleEvent(c.task.value, e))
      && u.published == [u.controller.state]
    ensures !(c.task.Some? && c.task.value.id == taskId) ==> u == Update(c, [])
  {
    if c.task.Some? && c.task.value.id == taskId then
      var t := HandleEvent(c.task.value, e);
      Update(c.(task := Some(t), state := HasTask(t.state)), [HasTask(t.state)])
    else Update(c, [])
  }

  /** `send(_:)`: to the current task's socket, if any. */
  function Send(c: Controller, m: Message): (d: Option<Delivery>)
    ensures d.Some? <==> c.task.Some?
    ensures d.Some? ==> d.value == Delivery(c.task.value.id, m)
  {
    if c.task.Some? then Some(Delivery(c.task.value.id, m)) else None
  }

  // ---------------------------------------------------------------------------
  // Runs

  datatype Input =
    | ChangeUrl(url: WebSocketUrl)
    | TimerTick
    | Socket(taskId: nat, event: SocketEvent)

  function Step(c: Controller, i: Input): (u: Update)
    requires Valid(c)
    ensures Valid(u.controller)
    ensures c.created <= u.controller.created <= c.created + 1
  {
    match i
    case ChangeUrl(url) => ChangeTask(c, url)
    case TimerTick => ResumeTask(c)
    case Socket(id, e) => OnSocketEvent(c, id, e)
  }

  function Run(c: Controller, inputs: seq<Input>): (u: Update)
    requires Valid(c)
    ensures Valid(u.controller)
    decreases |inputs|
  {
    if |inputs| == 0 then Update(c, [])
    else
      var first := Step(c, inputs[0]);
      var rest := Run(first.controller, inputs[1..]);
      Update(rest.controller, first.published + rest.published)
  }

  /** Once a controller has a task it never again publishes `noTask`, whatever happens next. */
  lemma {:induction false} RunNeverPublishesNoTaskOnceStarted(c: Controller, inputs: seq<Input>)
    requires Valid(c) && c.task.Some?
    ensures NoTask !in Run(c, inputs).published
    ensures Run(c, inputs).controller.task.Some?
    decreases |inputs|
  {
    if |inputs| > 0 {
      var first := Step(c, inputs[0]);
      RunNeverPublishesNoTaskOnceStarted(first.controller, inputs[1..]);
    }
  }

  /** Every input creates at most one task. */
  lemma {:induction false} RunCreatesAtMostOneTaskPerInput(c: Controller, inputs: seq<Input>)
    requires Valid(c)
    ensures c.created <= Run(c, inputs).controller.created <= c.created + |inputs|
    decreases |inputs|
  {
    if |inputs| > 0 {
      RunCreatesAtMostOneTaskPerInput(Step(c, inputs[0]).controller, inputs[1..]);
    }
  }

  /** Changing to the same URL twice creates one task. */
  lemma ChangeTaskIsIdempotent(c: Controller, url: WebSocketUrl)
    requires Valid(c)
    ensures ChangeTask(ChangeTask(c, url).controller, url) == Update(ChangeTask(c, url).controller, [])
  {
  }

  /** A task that is still idle, attempting or connected is left alone by the timer. */
  lemma TickLeavesLiveTask(c: Controller)
    requires Valid(c) && c.task.Some?
    requires c.task.value.state.Idle? || c.task.value.state.AttemptingConnection? || c.task.value.state.Connected?
    ensures ResumeTask(c) == Update(c, [])
  {
  }
}
