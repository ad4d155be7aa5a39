/**
 * What the streamers hand to their WebSocket controller: a request, encoded,
 * sent to the controller's current task. Shared by the streamers of all
 * three targets, which each encode with their own utilities and send through
 * their own controller.
 */
module RosbridgeSending {
  import opened Wrappers
  import opened Platform

  /** One request the streamer sent: the request, the task it went to, and the encoded message. */
  datatype Frame<R> = Frame(request: R, taskId: nat, message: Message)

  /**
   * `if let encoded = encodeForWebSocket(object:) { controller.send(encoded) }`:
   * nothing is sent when encoding fails, and the controller drops the message
   * when it has no task (`taskId` is the current task's number, if any).
   */
  function SendRequest<R>(encode: R -> Option<Message>, taskId: Option<nat>, request: R): (f: seq<Frame<R>>)
    ensures |f| <= 1
    ensures |f| == 1 <==> taskId.Some? && encode(request).Some?
    ensures |f| == 1 ==> f[0] == Frame(request, taskId.value, encode(request).value)
  {
    var encoded := encode(request);
    if taskId.Some? && encoded.Some? then [Frame(request, taskId.value, encoded.value)] else []
  }

  /** Every frame went to a task numbered below `created`, that is, one that had been made. */
  predicate AddressedBelow<R>(frames: seq<Frame<R>>, created: nat) {
    forall k :: 0 <= k < |frames| ==> frames[k].taskId < created
  }
}
