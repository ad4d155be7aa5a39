# AirSense, MotionRosStreamer and HeadphoneMotionPub in Dafny

The repository holds three near-duplicate iOS apps. Each streams phone,
headphone and face samples as ROS messages to a rosbridge WebSocket server.
This project models the sequential core under their SwiftUI, CoreMotion,
ARKit and URLSession plumbing, as pure functions over immutable datatypes:

- **ROS message objects and rosbridge requests.** `RosTime`, `RosHeader`,
  `RosQuaternion`, `RosVector3`, `RosImu` and `RosTransform`, the advertise,
  unadvertise and publish requests, and `encodeForWebSocket`. There is one
  module per app revision: `AirSenseRosbridgeUtilities` and
  `HmpRosbridgeUtilities`. Messages are JSON trees (`Json`). The encoder is
  a writer whose number printer is a parameter, so an unprintable number
  makes encoding fail, as in `JSONEncoder`.
- **WebSocket URL validation, tasks and controllers.** `AirSenseWebSocketController`
  models AirSense's `WebSocketController`. `HmpWebSocketTaskController`
  models HeadphoneMotionPub's `WebSocketTaskController`.
  - A controller step returns the new controller and the list of values
    assigned to its published `state`.
  - Tasks are numbered by creation. "Exactly one new task" means that the
    creation counter rose by one.
  - Socket callbacks name the task they come from. The timer tick and the
    callbacks are explicit inputs.
- **Streamers.** `AirSenseRosbridgeStreamer`, `MrsRosbridgeStreamer`,
  `HmpMotionToRosbridgeStreamer` and `MrsMotionToRosbridgeStreamer` each
  handle one event at a time: a setting assigned, a controller input, or a
  tracker sample. Each returns the frames it handed to the controller's
  `send`: the request, the task it went to, and the encoded message.
  - The two sending modules, `AirSenseStreamerSending` and `HmpStreamerSending`,
    hold what the streamers of each controller share.
  - The encoder and the message builders are parameters. Separate lemmas
    connect them to the source's own encoder and builders.
- **HeadphoneMotionPub's `RosPublisher`** (`HmpRosPublisher`). It covers the
  session restart, the sequence counter, the seconds and nanoseconds split
  of the stamp, and the dictionary `publishMotion` serialises.
- **Trackers.**
  - `MrsFaceTracker` covers video-format selection, the choice of face
    anchor and the mirroring of the face pose.
  - `AirSenseHeadphoneTracker` covers the start-up decision table and the
    connection callbacks.
  - `HmpHeadphoneTracker` and `HmpHeadphoneMotionTracker` cover the state
    delegate, handler dispatch and the throwing initializer.

MotionRosStreamer's own `RosbridgeUtilities.swift` and controller files are
not part of this model. Its `RosbridgeStreamer.swift` uses
`WebSocketController` and `RosTransform(_ matrix:)`, which only AirSense's
files define, so AirSense's utilities and controller stand in for it. Its
`MotionToRosbridgeStreamer.swift` uses `WebSocketTaskController`, so
HeadphoneMotionPub's utilities and controller stand in for it. The two
stand-ins disagree on the `RosImu` covariances (see "## Left out").

Three behaviours of the code are modelled as written, though a reader of the
comments might expect otherwise:

- A topic's `didSet` sends an advertisement on every assignment, even of
  the topic already set.
- AirSense's timer tick goes through `discardTask()`, so observers see
  `noTask` between the stopped task and its replacement.
- `RosPublisher.publishMotion` advances its counter even when there is no
  task to send to.

## Model

| member | source | states |
|---|---|---|
| SwiftNumerics.Trunc | AirSense/RosbridgeUtilities.swift:25 | `Int(Double)` truncates toward zero: the result is the integer between zero and the argument that is less than one away from it |
| SwiftNumerics.TruncOfFractionIsZero | AirSense/RosbridgeUtilities.swift:26 | truncating a value strictly between -1 and 1 gives 0, which is what `Int(timeInterval - Double(sec))` truncates |
| Json.WriteSucceedsIffEncodable | AirSense/RosbridgeUtilities.swift:191-196 | `JSONEncoder.encode` succeeds exactly when every number in the tree is printable |
| Json.IntegralIsEncodable | AirSense/RosbridgeUtilities.swift:191-196 | a tree without floating-point numbers always encodes |
| Json.UnescapeEscape | AirSense/RosbridgeUtilities.swift:188-190 | string escaping loses nothing: unescaping the written string gives it back, with or without slash escaping |
| Json.EscapeIdentity | AirSense/RosbridgeUtilities.swift:188-190 | a string is written unchanged exactly when it needs no escape and, when slashes are escaped, holds no slash |
| AirSenseRosbridgeUtilities.TimeFromIntervalAsWritten | AirSense/RosbridgeUtilities.swift:24-27 | as written, `sec` is the truncated interval and `usec` is always 0, because the fraction is truncated before it is scaled |
| AirSenseRosbridgeUtilities.TimeFromInterval | AirSense/RosbridgeUtilities.swift:24-27 | the intended conversion: same `sec`, and for a non-negative interval a sub-second part in [0, 10^9) with `sec + usec/10^9 <= t < sec + (usec+1)/10^9` |
| AirSenseRosbridgeUtilities.AsWrittenDropsFraction | AirSense/RosbridgeUtilities.swift:24-27 | on 1.5 s the written conversion gives (1, 0) where the intended one gives (1, 500000000) |
| AirSenseRosbridgeUtilities.ConversionsAgreeBelowOneNanosecond | AirSense/RosbridgeUtilities.swift:24-27 | for a non-negative interval the two conversions agree exactly when the fraction is below one nanosecond |
| AirSenseRosbridgeUtilities.TimeJson | AirSense/RosbridgeUtilities.swift:15-17 | the encoded time has members `sec` and `usec` holding the two fields |
| AirSenseRosbridgeUtilities.HeaderJson | AirSense/RosbridgeUtilities.swift:31-40 | the encoded header has `seq` (always 0), `stamp` and `frame_id` |
| AirSenseRosbridgeUtilities.Defaults | AirSense/RosbridgeUtilities.swift:19-85 | default initialisers: zero time, header with empty frame id, identity quaternion (0,0,0,1), zero vector |
| AirSenseRosbridgeUtilities.QuaternionFrom | AirSense/RosbridgeUtilities.swift:56-61 | `RosQuaternion(quaternion:)` copies x, y, z, w |
| AirSenseRosbridgeUtilities.QuaternionJson | AirSense/RosbridgeUtilities.swift:43-47 | the encoded quaternion has members x, y, z, w |
| AirSenseRosbridgeUtilities.Vector3From | AirSense/RosbridgeUtilities.swift:87-97 | `RosVector3(rotationRate:)` and `(acceleration:)` copy the three components |
| AirSenseRosbridgeUtilities.Vector3Json | AirSense/RosbridgeUtilities.swift:76-79 | the encoded vector has members x, y, z |
| AirSenseRosbridgeUtilities.MakeImu | AirSense/RosbridgeUtilities.swift:116-130 | the memberwise initialiser keeps the given fields, and each omitted covariance becomes nine zeros |
| AirSenseRosbridgeUtilities.ImuFromMotion | AirSense/RosbridgeUtilities.swift:132-143 | `RosImu(motion:frameId:)`: the stamp is `RosTime(timeInterval:)` as written, the whole seconds with `usec` 0; attitude, rotation rate, gravity plus user acceleration, zero covariances |
| RosImuObject.ImuObject | AirSense/RosbridgeUtilities.swift:107-114 | the `sensor_msgs/Imu` object has exactly its seven members, each holding the given value |
| AirSenseRosbridgeUtilities.ImuJson | AirSense/RosbridgeUtilities.swift:107-114 | the encoded IMU holds the encoded header, orientation, vectors and covariances |
| AirSenseRosbridgeUtilities.Rotation | AirSense/RosbridgeUtilities.swift:158-161 | the rotation block is the upper-left 3x3 of the matrix, entry for entry |
| AirSenseRosbridgeUtilities.TransformFromMatrix | AirSense/RosbridgeUtilities.swift:156-162 | `RosTransform(_:)`: translation is column 3's first three entries, rotation is the quaternion of the rotation block |
| AirSenseRosbridgeUtilities.TransformJson | AirSense/RosbridgeUtilities.swift:147-149 | the encoded transform has `translation` and `rotation` |
| AirSenseRosbridgeUtilities.AdvertiseJson | AirSense/RosbridgeUtilities.swift:167-171 | op "advertise", the topic and the type, and no number anywhere |
| AirSenseRosbridgeUtilities.UnadvertiseJson | AirSense/RosbridgeUtilities.swift:173-176 | op "unadvertise" and the topic |
| AirSenseRosbridgeUtilities.PublishJson | AirSense/RosbridgeUtilities.swift:178-182 | op "publish", the topic and the message |
| AirSenseRosbridgeUtilities.EncodeForWebSocket | AirSense/RosbridgeUtilities.swift:186-197 | a `.data` message exactly when the object is encodable, holding the writer's output with slashes unescaped; `nil` otherwise |
| AirSenseRosbridgeUtilities.AdvertiseAlwaysEncodes | AirSense/RosbridgeUtilities.swift:186-197 | an advertise request never fails to encode |
| AirSenseRosbridgeUtilities.AdvertiseTypeWrittenLiterally | AirSense/RosbridgeUtilities.swift:188-190 | the encoded advertisement spells a type such as `sensor_msgs/Imu` with a bare slash |
| AirSenseWebSocketController.MakeWebSocketUrl | AirSense/WebSocketController.swift:15-23 | `WebSocketURL(value:)` succeeds exactly for a parsable ws/wss URL whose rebuilt URL equals the input, and keeps the input |
| AirSenseWebSocketController.RejectsOtherSchemes | AirSense/WebSocketController.swift:19 | any scheme other than ws and wss is refused |
| AirSenseWebSocketController.RevalidationIsIdentity | AirSense/WebSocketController.swift:15-23 | validating an accepted URL again accepts it unchanged |
| AirSenseWebSocketController.NewTask | AirSense/WebSocketController.swift:64-74 | a new task starts `initialized(url)`, not stopped |
| AirSenseWebSocketController.StoppedIffNotLive | AirSense/WebSocketController.swift:49-56 | `isStopped` holds exactly for `disconnected` and `finished` |
| AirSenseWebSocketController.HandleEvent | AirSense/WebSocketController.swift:91-108 | create gives `connecting`, open gives `connected`, close gives `disconnected` with its code, complete gives `finished` with its error; stopped exactly after close or complete; the URL is kept |
| AirSenseWebSocketController.HandleEventForgetsPriorState | AirSense/WebSocketController.swift:91-108 | the new state depends only on the callback, not on the previous state |
| AirSenseWebSocketController.Init | AirSense/WebSocketController.swift:125 | the controller starts in `noTask` with no task |
| AirSenseWebSocketController.StartTask | AirSense/WebSocketController.swift:151-159 | a no-op when a task exists; otherwise exactly one new task to the URL, and `hasTask(initialized)` is published twice (assignment, then the subscription) |
| AirSenseWebSocketController.DiscardTask | AirSense/WebSocketController.swift:162-166 | no task, no subscription, `noTask` published once, counter unchanged |
| AirSenseWebSocketController.Replace | AirSense/WebSocketController.swift:171-172 | discard then start: one new task to the URL; `noTask` then `hasTask(initialized)` twice are published |
| AirSenseWebSocketController.UpdateTask | AirSense/WebSocketController.swift:169-173 | a no-op for the current URL; otherwise exactly one new task to the new URL, state `hasTask(initialized)` |
| AirSenseWebSocketController.ResumeTask | AirSense/WebSocketController.swift:177-182 | only a stopped task is replaced, by exactly one new task to the same URL; otherwise nothing changes |
| AirSenseWebSocketController.OnSocketEvent | AirSense/WebSocketController.swift:155-158 | the current task's callback updates it and the mirrored state is published once; a callback from any other task changes nothing |
| AirSenseWebSocketController.Send | AirSense/WebSocketController.swift:185-187 | a message is delivered to the current task exactly when there is one |
| AirSenseWebSocketController.Step | AirSense/WebSocketController.swift:114-188 | every input keeps the controller invariant (state mirrors the newest task) and creates at most one task |
| AirSenseWebSocketController.Run | AirSense/WebSocketController.swift:114-188 | any sequence of inputs keeps the controller invariant |
| AirSenseWebSocketController.RunCreatesAtMostOneTaskPerInput | AirSense/WebSocketController.swift:151-182 | a run of n inputs creates at most n tasks |
| AirSenseWebSocketController.UpdateTaskIsIdempotent | AirSense/WebSocketController.swift:170 | updating twice to the same URL does nothing the second time |
| AirSenseWebSocketController.TickAfterStopReconnects | AirSense/WebSocketController.swift:177-182 | after a close or completion the next tick makes exactly one task to the same URL, publishing `noTask` first |
| AirSenseWebSocketController.StaleCallbackIgnored | AirSense/WebSocketController.swift:163 | after an update to another URL, callbacks of the dropped task change nothing |
| HmpRosbridgeUtilities.TimeFromIntervalAsWritten | HeadphoneMotionPub/RosbridgeUtilities.swift:23-26 | as written, `usec` is always 0 |
| HmpRosbridgeUtilities.TimeFromInterval | HeadphoneMotionPub/RosbridgeUtilities.swift:23-26 | the intended conversion, accurate to the nanosecond below the interval |
| HmpRosbridgeUtilities.AsWrittenDropsFraction | HeadphoneMotionPub/RosbridgeUtilities.swift:23-26 | on 2.25 s the written conversion gives (2, 0) where the intended one gives (2, 250000000) |
| HmpRosbridgeUtilities.TimeJson | HeadphoneMotionPub/RosbridgeUtilities.swift:14-16 | members `sec` and `usec` |
| HmpRosbridgeUtilities.MakeHeader | HeadphoneMotionPub/RosbridgeUtilities.swift:35-39 | the `seq` argument is ignored and 0 stored; stamp and frame id are kept |
| HmpRosbridgeUtilities.HeaderIgnoresSeq | HeadphoneMotionPub/RosbridgeUtilities.swift:35-39 | headers asked for with different `seq` values are equal |
| HmpRosbridgeUtilities.HeaderJson | HeadphoneMotionPub/RosbridgeUtilities.swift:30-33 | members `seq`, `stamp`, `frame_id` |
| HmpRosbridgeUtilities.Defaults | HeadphoneMotionPub/RosbridgeUtilities.swift:18-74 | identity quaternion, zero vector, zero time, empty header |
| HmpRosbridgeUtilities.QuaternionFrom | HeadphoneMotionPub/RosbridgeUtilities.swift:56-61 | copies x, y, z, w |
| HmpRosbridgeUtilities.QuaternionJson | HeadphoneMotionPub/RosbridgeUtilities.swift:43-47 | members x, y, z, w |
| HmpRosbridgeUtilities.Vector3From | HeadphoneMotionPub/RosbridgeUtilities.swift:76-86 | copies the three components |
| HmpRosbridgeUtilities.Vector3Json | HeadphoneMotionPub/RosbridgeUtilities.swift:65-68 | members x, y, z |
| HmpRosbridgeUtilities.ImuJson | HeadphoneMotionPub/RosbridgeUtilities.swift:90-98 | the encoded IMU holds the fields, and all three covariances are [-1, 0, 0, 0, 0, 0, 0, 0, 0] whatever the inputs |
| HmpRosbridgeUtilities.AdvertiseJson | HeadphoneMotionPub/RosbridgeUtilities.swift:102-106 | op "advertise", topic, type; no number |
| HmpRosbridgeUtilities.UnadvertiseJson | HeadphoneMotionPub/RosbridgeUtilities.swift:108-111 | op "unadvertise", topic |
| HmpRosbridgeUtilities.PublishJson | HeadphoneMotionPub/RosbridgeUtilities.swift:113-117 | op "publish", topic, message |
| HmpRosbridgeUtilities.EncodeForWebSocket | HeadphoneMotionPub/RosbridgeUtilities.swift:121-132 | `.data` exactly when encodable, slashes unescaped; `nil` otherwise |
| HmpRosbridgeUtilities.AdvertiseAlwaysEncodes | HeadphoneMotionPub/RosbridgeUtilities.swift:121-132 | an advertisement always encodes |
| HmpRosbridgeUtilities.AdvertiseTypeWrittenLiterally | HeadphoneMotionPub/RosbridgeUtilities.swift:123-125 | the type is written with a bare slash |
| HmpWebSocketTaskController.MakeWebSocketUrl | HeadphoneMotionPub/WebSocketTaskController.swift:15-24 | `WebSocketURL(string:)` succeeds exactly for a parsable ws/wss string whose rebuilt `absoluteString` equals it |
| HmpWebSocketTaskController.DescriptionRoundTrip | HeadphoneMotionPub/WebSocketTaskController.swift:26-28 | the description of an accepted URL is the input string |
| HmpWebSocketTaskController.RejectsOtherSchemes | HeadphoneMotionPub/WebSocketTaskController.swift:19 | other schemes are refused |
| HmpWebSocketTaskController.NewTask | HeadphoneMotionPub/WebSocketTaskController.swift:58-68 | a new task starts `idle` |
| HmpWebSocketTaskController.HandleEvent | HeadphoneMotionPub/WebSocketTaskController.swift:85-102 | create gives `attemptingConnection(url)`, open gives `connected(url)`, close and complete give `disconnected`; never `idle` again |
| HmpWebSocketTaskController.CloseAndCompleteAgree | HeadphoneMotionPub/WebSocketTaskController.swift:89-102 | close and complete lead to the same task |
| HmpWebSocketTaskController.Init | HeadphoneMotionPub/WebSocketTaskController.swift:119 | starts in `noTask` |
| HmpWebSocketTaskController.Install | HeadphoneMotionPub/WebSocketTaskController.swift:152-160 | the old task is dropped, exactly one idle task to the URL is installed, and `hasTask(idle)` is published twice |
| HmpWebSocketTaskController.ChangeTask | HeadphoneMotionPub/WebSocketTaskController.swift:148-161 | a no-op for the current URL; otherwise exactly one new task to the new URL, state `hasTask(idle)`, never `noTask` published |
| HmpWebSocketTaskController.ResumeTask | HeadphoneMotionPub/WebSocketTaskController.swift:165-184 | only a `disconnected` task is replaced, by one to the same URL; never `noTask` published |
| HmpWebSocketTaskController.OnSocketEvent | HeadphoneMotionPub/WebSocketTaskController.swift:157-160 | the current task's callback is mirrored and published once; other tasks' callbacks change nothing |
| HmpWebSocketTaskController.Send | HeadphoneMotionPub/WebSocketTaskController.swift:144-146 | delivered to the current task exactly when there is one |
| HmpWebSocketTaskController.Step | HeadphoneMotionPub/WebSocketTaskController.swift:108-185 | every input keeps the invariant and creates at most one task |
| HmpWebSocketTaskController.Run | HeadphoneMotionPub/WebSocketTaskController.swift:108-185 | any run keeps the invariant |
| HmpWebSocketTaskController.RunNeverPublishesNoTaskOnceStarted | HeadphoneMotionPub/WebSocketTaskController.swift:148-184 | once there is a task, no later input publishes `noTask` or removes the task |
| HmpWebSocketTaskController.RunCreatesAtMostOneTaskPerInput | HeadphoneMotionPub/WebSocketTaskController.swift:148-184 | n inputs create at most n tasks |
| HmpWebSocketTaskController.ChangeTaskIsIdempotent | HeadphoneMotionPub/WebSocketTaskController.swift:150 | changing twice to one URL does nothing the second time |
| HmpWebSocketTaskController.TickLeavesLiveTask | HeadphoneMotionPub/WebSocketTaskController.swift:181-182 | idle, attempting and connected tasks are left alone by the tick |
| RosbridgeSending.SendRequest | AirSense/RosbridgeStreamer.swift:80-85 | one frame exactly when there is a task and encoding succeeds, addressed to that task and holding the encoded request |
| AirSenseStreamerSending.TaskId | AirSense/RosbridgeStreamer.swift:83 | the current task's number, when there is a task |
| AirSenseStreamerSending.RequestJson | AirSense/RosbridgeStreamer.swift:80-92 | the streamer's requests carry op "advertise" or "publish" and their topic |
| AirSenseStreamerSending.EncodeRequestFailsOnlyOnNumbers | AirSense/RosbridgeStreamer.swift:80-92 | `encodeForWebSocket` never fails on an advertisement, and fails on a publication exactly when its message is not encodable |
| AirSenseStreamerSending.Advertise | AirSense/RosbridgeStreamer.swift:80-85 | an advertisement of the topic and type goes to the current task exactly when there is one |
| AirSenseStreamerSending.Publish | AirSense/RosbridgeStreamer.swift:87-92 | a publication goes to the current task exactly when there is one and it encodes |
| AirSenseStreamerSending.AdvertiseTopics | AirSense/RosbridgeStreamer.swift:52-54 | phone (Imu), headphone (Imu), face (Transform), in that order, each to the current task; nothing without a task |
| AirSenseStreamerSending.Connections | AirSense/RosbridgeStreamer.swift:51 | counts the published `hasTask(connected)` states; zero exactly when there is none |
| AirSenseStreamerSending.OnPublished | AirSense/RosbridgeStreamer.swift:50-55 | three advertisements per published `hasTask(connected)`, all to the current task; nothing for any other state |
| AirSenseStreamerSending.NeverUnadvertises | AirSense/RosbridgeStreamer.swift:80-92 | every request sent is an advertisement or a publication |
| AirSenseRosbridgeStreamer.Init | AirSense/RosbridgeStreamer.swift:24-44 | fresh controller, ROS 1 bodies, empty topics and frame ids |
| AirSenseRosbridgeStreamer.PublishMotion | AirSense/RosbridgeStreamer.swift:94-101 | the ROS 2 body when `sendRos2Msgs` is set, the ROS 1 body otherwise, published on the topic |
| AirSenseRosbridgeStreamer.PublishTransform | AirSense/RosbridgeStreamer.swift:103-110 | likewise for the face transform |
| AirSenseRosbridgeStreamer.Handle | AirSense/RosbridgeStreamer.swift:26-75 | every event keeps the controller invariant and addresses frames only to tasks already made; only controller inputs touch the controller; without a task, nothing else is sent |
| AirSenseRosbridgeStreamer.Run | AirSense/RosbridgeStreamer.swift:26-75 | any run keeps the invariant |
| AirSenseRosbridgeStreamer.RunAddressesMadeTasks | AirSense/RosbridgeStreamer.swift:48-75 | over any run, every frame goes to a task made by the end of the run |
| AirSenseRosbridgeStreamer.PhoneTopicAssignmentAdvertises | AirSense/RosbridgeStreamer.swift:28-32 | assigning the phone topic, even unchanged, advertises it as Imu to the current task |
| AirSenseRosbridgeStreamer.HeadphoneTopicAssignmentAdvertises | AirSense/RosbridgeStreamer.swift:34-38 | likewise for the headphone topic |
| AirSenseRosbridgeStreamer.FaceTopicAssignmentAdvertises | AirSense/RosbridgeStreamer.swift:40-44 | likewise for the face topic, as Transform |
| AirSenseRosbridgeStreamer.SettingsAreSilent | AirSense/RosbridgeStreamer.swift:26-39 | assigning a frame id or the ROS 2 flag sends nothing |
| AirSenseRosbridgeStreamer.OpeningAdvertisesAllTopics | AirSense/RosbridgeStreamer.swift:50-55 | when the current task opens, the three topics are advertised to it in order |
| AirSenseRosbridgeStreamer.OtherCallbacksAreSilent | AirSense/RosbridgeStreamer.swift:51 | any other socket callback sends nothing |
| AirSenseRosbridgeStreamer.MissingSamplesIgnored | AirSense/RosbridgeStreamer.swift:58 | a tracker publishing `nil` sends nothing |
| AirSenseRosbridgeStreamer.PhoneSamplePublished | AirSense/RosbridgeStreamer.swift:57-62 | a phone sample is published on the phone topic with the phone frame id, in the body the flag selects |
| AirSenseRosbridgeStreamer.HeadphoneSamplePublished | AirSense/RosbridgeStreamer.swift:63-69 | a headphone sample is published on the headphone topic with the headphone frame id, to the current task, in the body the flag selects; dropped only without a task or when it does not encode |
| AirSenseRosbridgeStreamer.FaceSamplePublished | AirSense/RosbridgeStreamer.swift:70-75 | a face transform is published on the face topic, to the current task, as the ROS 2 transform exactly when the flag is set |
| MrsRosbridgeStreamer.Init | MotionRosStreamer/RosbridgeStreamer.swift:26-43 | fresh controller, empty topics, gravity included |
| MrsRosbridgeStreamer.Acceleration | MotionRosStreamer/RosbridgeStreamer.swift:87-91 | the user acceleration when gravity is excluded, the componentwise sum with gravity otherwise |
| MrsRosbridgeStreamer.GravityIsTheDifference | MotionRosStreamer/RosbridgeStreamer.swift:87-91 | the two settings differ by exactly gravity |
| MrsRosbridgeStreamer.MotionImu | MotionRosStreamer/RosbridgeStreamer.swift:92-100 | the stamp is the whole seconds with `usec` 0, as `RosTime(timeInterval:)` computes; frame id, attitude, rotation rate, the selected acceleration; zero covariances under AirSense's `RosImu` |
| MrsRosbridgeStreamer.WithGravityIsImuFromMotion | MotionRosStreamer/RosbridgeStreamer.swift:87-100 | with gravity included, the message equals `RosImu(motion:frameId:)` |
| MrsRosbridgeStreamer.SourceMessagesContents | MotionRosStreamer/RosbridgeStreamer.swift:92-109 | the motion message's header holds the whole seconds with `usec` 0 and the frame id, with the attitude and the selected acceleration; the transform message carries the translation and rotation of the matrix |
| MrsRosbridgeStreamer.PublishMotion | MotionRosStreamer/RosbridgeStreamer.swift:86-104 | the message for the current gravity setting is published on the topic when there is a task and it encodes |
| MrsRosbridgeStreamer.PublishTransform | MotionRosStreamer/RosbridgeStreamer.swift:106-113 | the transform message is published likewise |
| MrsRosbridgeStreamer.Handle | MotionRosStreamer/RosbridgeStreamer.swift:26-74 | keeps the invariant, addresses only made tasks, settings and samples leave the controller alone |
| MrsRosbridgeStreamer.Run | MotionRosStreamer/RosbridgeStreamer.swift:26-74 | any run keeps the invariant |
| MrsRosbridgeStreamer.RunAddressesMadeTasks | MotionRosStreamer/RosbridgeStreamer.swift:47-74 | every frame of a run goes to a task made by its end |
| MrsRosbridgeStreamer.PhoneTopicAssignmentAdvertises | MotionRosStreamer/RosbridgeStreamer.swift:26-30 | assigning the phone topic advertises it as Imu |
| MrsRosbridgeStreamer.HeadphoneTopicAssignmentAdvertises | MotionRosStreamer/RosbridgeStreamer.swift:32-36 | assigning the headphone topic advertises it as Imu |
| MrsRosbridgeStreamer.FaceTopicAssignmentAdvertises | MotionRosStreamer/RosbridgeStreamer.swift:39-43 | assigning the face topic advertises it as Transform |
| MrsRosbridgeStreamer.OpeningAdvertisesAllTopics | MotionRosStreamer/RosbridgeStreamer.swift:49-54 | on opening, phone, headphone and face topics are advertised in order |
| MrsRosbridgeStreamer.SilentEvents | MotionRosStreamer/RosbridgeStreamer.swift:31-38 | missing samples, both frame ids and the gravity flag send nothing and change only their own field |
| MrsRosbridgeStreamer.PhoneSamplePublished | MotionRosStreamer/RosbridgeStreamer.swift:56-61 | a phone sample is published on the phone topic with the phone frame id and the current gravity setting, to the current task; dropped only without a task or when it does not encode |
| MrsRosbridgeStreamer.HeadphoneSamplePublished | MotionRosStreamer/RosbridgeStreamer.swift:63-68 | a headphone sample is published on the headphone topic with its frame id and the current gravity setting |
| MrsRosbridgeStreamer.FaceSamplePublished | MotionRosStreamer/RosbridgeStreamer.swift:70-74 | a face transform is published on the face topic |
| HmpStreamerSending.TaskId | HeadphoneMotionPub/MotionToRosbridgeStreamer.swift:72 | the current task's number |
| HmpStreamerSending.RequestJson | HeadphoneMotionPub/MotionToRosbridgeStreamer.swift:69-89 | requests carry op "advertise" or "publish" and their topic |
| HmpStreamerSending.EncodeRequestFailsOnlyOnNumbers | HeadphoneMotionPub/MotionToRosbridgeStreamer.swift:69-89 | advertisements always encode; a publication fails exactly when its message is not encodable |
| HmpStreamerSending.Advertise | HeadphoneMotionPub/MotionToRosbridgeStreamer.swift:69-74 | an Imu advertisement of the topic goes to the current task exactly when there is one |
| HmpStreamerSending.Publish | HeadphoneMotionPub/MotionToRosbridgeStreamer.swift:86-88 | a publication goes to the current task exactly when there is one and it encodes |
| HmpStreamerSending.AdvertiseTopics | HeadphoneMotionPub/MotionToRosbridgeStreamer.swift:44-46 | device then headphone topic, both to the current task |
| HmpStreamerSending.Connections | HeadphoneMotionPub/MotionToRosbridgeStreamer.swift:44 | counts published `hasTask(connected)` states |
| HmpStreamerSending.OnPublished | HeadphoneMotionPub/MotionToRosbridgeStreamer.swift:41-50 | two advertisements per published `hasTask(connected)`, nothing for other states |
| HmpMotionToRosbridgeStreamer.Init | HeadphoneMotionPub/MotionToRosbridgeStreamer.swift:20-35 | fresh controller, empty topics and frame ids |
| HmpMotionToRosbridgeStreamer.MotionImu | HeadphoneMotionPub/MotionToRosbridgeStreamer.swift:77-85 | header with seq 0, the whole seconds with `usec` 0 (as `RosTime(timeInterval:)` computes) and the frame id; attitude; rotation rate; user acceleration only |
| HmpMotionToRosbridgeStreamer.SourceMessageContents | HeadphoneMotionPub/MotionToRosbridgeStreamer.swift:77-85 | the published message carries that header (`usec` 0), the attitude, rotation rate, user acceleration and the "not provided" covariance |
| HmpMotionToRosbridgeStreamer.Handle | HeadphoneMotionPub/MotionToRosbridgeStreamer.swift:24-65 | keeps the invariant, addresses only made tasks, settings and samples leave the controller alone, nothing sent without a task |
| HmpMotionToRosbridgeStreamer.Run | HeadphoneMotionPub/MotionToRosbridgeStreamer.swift:24-65 | any run keeps the invariant |
| HmpMotionToRosbridgeStreamer.RunAddressesMadeTasks | HeadphoneMotionPub/MotionToRosbridgeStreamer.swift:39-65 | every frame of a run goes to a task made by its end |
| HmpMotionToRosbridgeStreamer.TopicAssignmentAdvertises | HeadphoneMotionPub/MotionToRosbridgeStreamer.swift:24-34 | assigning either topic, even unchanged, sends one Imu advertisement of it |
| HmpMotionToRosbridgeStreamer.OpeningAdvertisesBothTopics | HeadphoneMotionPub/MotionToRosbridgeStreamer.swift:41-50 | on opening, device then headphone topic are advertised |
| HmpMotionToRosbridgeStreamer.NewUrlSendsNothing | HeadphoneMotionPub/MotionToRosbridgeStreamer.swift:43-48 | a new URL creates one task and sends nothing, since only `hasTask(connected)` advertises |
| HmpMotionToRosbridgeStreamer.SilentEvents | HeadphoneMotionPub/MotionToRosbridgeStreamer.swift:52-64 | missing samples and frame ids send nothing |
| HmpMotionToRosbridgeStreamer.SamplesPublishedOnTheirTopics | HeadphoneMotionPub/MotionToRosbridgeStreamer.swift:52-64 | each sample is published on its own tracker's topic with its own frame id, exactly when there is a task and it encodes |
| MrsMotionToRosbridgeStreamer.Init | MotionRosStreamer/MotionToRosbridgeStreamer.swift:20-36 | fresh controller, empty topics, gravity included |
| MrsMotionToRosbridgeStreamer.MotionImu | MotionRosStreamer/MotionToRosbridgeStreamer.swift:73-86 | header with the whole seconds and `usec` 0; the acceleration is the user's alone when gravity is excluded, the sum with gravity otherwise |
| MrsMotionToRosbridgeStreamer.ExcludingGravityIsHeadphoneMotionPubImu | MotionRosStreamer/MotionToRosbridgeStreamer.swift:73-86 | with gravity excluded, the message is HeadphoneMotionPub's |
| MrsMotionToRosbridgeStreamer.SourceMessageContents | MotionRosStreamer/MotionToRosbridgeStreamer.swift:72-90 | the published message's header holds the whole seconds with `usec` 0 and the frame id, with the attitude and the selected acceleration; with gravity excluded it is HeadphoneMotionPub's message |
| MrsMotionToRosbridgeStreamer.Handle | MotionRosStreamer/MotionToRosbridgeStreamer.swift:24-61 | keeps the invariant and addresses only made tasks |
| MrsMotionToRosbridgeStreamer.Run | MotionRosStreamer/MotionToRosbridgeStreamer.swift:24-61 | any run keeps the invariant |
| MrsMotionToRosbridgeStreamer.Forget | MotionRosStreamer/MotionToRosbridgeStreamer.swift:20-35 | the streamer without its gravity setting keeps every other field |
| MrsMotionToRosbridgeStreamer.Translate | MotionRosStreamer/MotionToRosbridgeStreamer.swift:24-61 | every event but the gravity setting has a counterpart in HeadphoneMotionPub's streamer |
| MrsMotionToRosbridgeStreamer.BehavesAsHeadphoneMotionPub | MotionRosStreamer/MotionToRosbridgeStreamer.swift:24-61 | apart from the gravity setting, each event sends the same frames and leaves the same state as in HeadphoneMotionPub |
| MrsMotionToRosbridgeStreamer.RunAddressesMadeTasks | MotionRosStreamer/MotionToRosbridgeStreamer.swift:40-61 | every frame of a run goes to a task made by its end |
| MrsMotionToRosbridgeStreamer.OpeningAdvertisesBothTopics | MotionRosStreamer/MotionToRosbridgeStreamer.swift:42-46 | on opening, device then headphone topic are advertised |
| MrsMotionToRosbridgeStreamer.GravitySettingAppliesToLaterSamples | MotionRosStreamer/MotionToRosbridgeStreamer.swift:72-77 | switching gravity sends nothing, and the next sample uses the new setting |
| HmpRosPublisher.Init | HeadphoneMotionPub/RosPublisher.swift:13-14 | no task, counter 0 |
| HmpRosPublisher.RestartSession | HeadphoneMotionPub/RosPublisher.swift:21-27 | the old task is cancelled, one new task to the URL is made, and the counter is reset to 0 |
| HmpRosPublisher.SplitStamp | HeadphoneMotionPub/RosPublisher.swift:38-40 | sec is the truncated interval; for t >= 0, 0 <= nsec < 10^9 and the pair is t rounded down to a nanosecond |
| HmpRosPublisher.SplitStampExample | HeadphoneMotionPub/RosPublisher.swift:38-40 | 1.75 s splits into (1, 750000000) |
| HmpRosPublisher.StampJson | HeadphoneMotionPub/RosPublisher.swift:44-47 | members `sec` and `nsec` |
| HmpRosPublisher.HeaderJson | HeadphoneMotionPub/RosPublisher.swift:42-49 | members `seq`, `stamp`, `frame_id` |
| HmpRosPublisher.ImuJson | HeadphoneMotionPub/RosPublisher.swift:51-72 | user acceleration only, and all three covariances [-1, 0, 0, 0, 0, 0, 0, 0, 0] |
| HmpRosPublisher.RequestJson | HeadphoneMotionPub/RosPublisher.swift:74-78 | op "publish", the topic name, the IMU body |
| HmpRosPublisher.MotionRequestShape | HeadphoneMotionPub/RosPublisher.swift:42-78 | the request's header carries the counter, the split stamp and the frame id |
| HmpRosPublisher.JsonSerializationFailsOnlyOnNumbers | HeadphoneMotionPub/RosPublisher.swift:80 | `JSONSerialization` rejects exactly a tree holding a number it cannot print (NaN or an infinity) |
| HmpRosPublisher.Publish | HeadphoneMotionPub/RosPublisher.swift:80-92 | a rejected tree traps, since `try?` does not catch the exception; otherwise the data goes to the task if there is one and the counter rises by one either way |
| HmpRosPublisher.Successes | HeadphoneMotionPub/RosPublisher.swift:80-92 | the samples before the first that fails to serialise, each under its own counter: all of them serialise, and the next one does not |
| HmpRosPublisher.CounterCountsSuccesses | HeadphoneMotionPub/RosPublisher.swift:80-92 | after many publishes the counter has risen by the number that serialised and nothing else has changed; the app traps exactly when some sample fails to serialise |
| HmpRosPublisher.DeliveriesCountSuccesses | HeadphoneMotionPub/RosPublisher.swift:84-90 | with a task, every sample before the first trap is delivered to that task; without one, none is |
| HmpRosPublisher.RestartThenPublish | HeadphoneMotionPub/RosPublisher.swift:21-27 | after a restart the next request is numbered 0 and goes to the new task |
| MrsFaceTracker.SelectVideoFormat | MotionRosStreamer/FaceTracker.swift:55-62 | `nil` exactly for no formats; otherwise a format of maximal width x height, of minimal frame rate among those, and the first such in the list |
| MrsFaceTracker.Init | MotionRosStreamer/FaceTracker.swift:45-72 | unsupported gives `fatalError(notSupported)` and runs nothing; supported runs the selected format, trapping on an empty list |
| MrsFaceTracker.SetEntry | MotionRosStreamer/FaceTracker.swift:101 | one matrix entry is replaced, every other kept |
| MrsFaceTracker.Mirror | MotionRosStreamer/FaceTracker.swift:100-106 | exactly entries (0,0), (0,1), (1,2), (2,2), (3,2) are negated; every other entry is unchanged |
| MrsFaceTracker.MirrorTwice | MotionRosStreamer/FaceTracker.swift:100-106 | mirroring twice gives the original matrix |
| MrsFaceTracker.MirrorFixesZeroEntries | MotionRosStreamer/FaceTracker.swift:100-106 | a matrix that is zero at the flipped entries is its own mirror |
| MrsFaceTracker.FirstFaceAnchor | MotionRosStreamer/FaceTracker.swift:81 | the position of the first face anchor, with none before it; `None` exactly when there is no face anchor |
| MrsFaceTracker.DidUpdate | MotionRosStreamer/FaceTracker.swift:80-109 | with no face anchor nothing changes; otherwise the transform becomes the mirrored pose of the first one |
| MrsFaceTracker.LaterFacesIgnored | MotionRosStreamer/FaceTracker.swift:81 | face anchors after the first do not affect the result |
| AirSenseHeadphoneTracker.Init | AirSense/HeadphoneTracker.swift:64-80 | unavailable gives `notSupported`; denied, restricted and unknown are fatal without tracking; not determined is fatal but tracks; authorized gives `normal(disconnected)` and tracks |
| AirSenseHeadphoneTracker.Handle | AirSense/HeadphoneTracker.swift:88-105 | connect sets `normal(connected)` and keeps the motion; disconnect sets `normal(disconnected)` and clears it; an update stores its motion; nothing happens without tracking |
| AirSenseHeadphoneTracker.RunSnoc | AirSense/HeadphoneTracker.swift:88-105 | running one more event is handling it after the run |
| AirSenseHeadphoneTracker.RunShowsLatest | AirSense/HeadphoneTracker.swift:88-105 | while tracking, the motion and state are what the most recent callbacks set |
| AirSenseHeadphoneTracker.UntrackedIsFinal | AirSense/HeadphoneTracker.swift:64-80 | a tracker that never started tracking never changes |
| AirSenseHeadphoneTracker.UndeterminedRecoversOnConnect | AirSense/HeadphoneTracker.swift:69-71 | with authorization not determined, the fatal state is replaced by `normal(connected)` on the first connection |
| HmpHeadphoneTracker.Init | HeadphoneMotionPub/HeadphoneTracker.swift:82-96 | disconnected, no handlers |
| HmpHeadphoneTracker.Notify | HeadphoneMotionPub/HeadphoneTracker.swift:54 | the state handler, if any, is called once with the state and reason |
| HmpHeadphoneTracker.UpdateState | HeadphoneMotionPub/HeadphoneTracker.swift:51-55 | the state changes, then the handler hears the new state |
| HmpHeadphoneTracker.Handle | HeadphoneMotionPub/HeadphoneTracker.swift:31-56 | assigning the state handler calls it at once with the current state and "StateHandler changed"; connect and disconnect set the state and notify; an update reaches the motion handler first, then the error handler, each only when present |
| HmpHeadphoneTracker.MotionBeforeError | HeadphoneMotionPub/HeadphoneTracker.swift:88-95 | a callback with both a motion and an error calls both handlers, motion first |
| HmpHeadphoneTracker.RunSnoc | HeadphoneMotionPub/HeadphoneTracker.swift:31-56 | running one more event is handling it after the run |
| HmpHeadphoneTracker.RunStateIsLastConnection | HeadphoneMotionPub/HeadphoneTracker.swift:41-55 | the delegate's state is what the most recent connection callback said |
| HmpHeadphoneTracker.NewHandlerHearsCurrentState | HeadphoneMotionPub/HeadphoneTracker.swift:33-37 | a new handler first hears the current state, then each change |
| HmpHeadphoneMotionTracker.Init | HeadphoneMotionPub/HeadphoneMotionTracker.swift:109-135 | unavailable throws `motionNotSupported`; denied, not determined and restricted throw their errors; any other status constructs a disconnected tracker without handlers |
| HmpHeadphoneMotionTracker.SupportCheckedFirst | HeadphoneMotionPub/HeadphoneMotionTracker.swift:110-112 | availability is checked before authorization is consulted |
| HmpHeadphoneMotionTracker.UndeterminedThrows | HeadphoneMotionPub/HeadphoneMotionTracker.swift:116-117 | not determined throws, and authorized constructs |
| HmpHeadphoneMotionTracker.ConstructedStartsDisconnected | HeadphoneMotionPub/HeadphoneMotionTracker.swift:60-65 | a constructed tracker starts disconnected, and a new state handler hears that at once |

## Left out

- I/O and scheduling. URLSession, `URLSessionWebSocketTask`, delegate queues
  and the 5-second `DispatchSourceTimer` are not modelled. Socket callbacks
  and timer ticks are explicit inputs.
- Combine. `@Published` and `sink` become lists of published values, and
  subscriptions become direct calls. Weak captures are not modelled,
  because the owners outlive their subscriptions.
- Platform parsers and encoders.
  - `URLComponents` is a parser parameter.
  - `JSONEncoder` and `JSONSerialization` are a JSON writer whose number
    printer is a parameter.
  - Member order in the output, and `JSONSerialization`'s dictionary order,
    are not modelled.
- Floating point. Doubles and floats are `real`, so NaN, infinities and
  rounding are not modelled, except in `RosPublisher`: there the serializer
  parameter answers None for a message `JSONSerialization` cannot write,
  and `HmpRosPublisher.Publish` treats that as the trap it is. `Int(Double)` overflow traps are not modelled,
  and `Int` is unbounded.
- `simd_quatf(matrix)`. The rotation-to-quaternion conversion is a function
  parameter of `AirSenseRosbridgeUtilities.TransformFromMatrix`.
- ROS 1 and ROS 2 message bodies. `Ros1Imu`, `Ros2Imu`, `Ros1Transform` and
  `Ros2Transform` are not defined in the files modelled. AirSense's streamer
  takes them as parameters and only the choice between them is modelled.
- MotionRosStreamer/RosbridgeUtilities.swift and
  MotionRosStreamer/WebSocketController.swift are not part of this model.
  AirSense's versions stand in for them.
- MrsRosbridgeStreamer.MotionImu: MotionRosStreamer's own `RosImu` is not
  part of this model. AirSense's `RosImu` stands in, with zero covariances
  and a header without a sequence number. The target's real covariance
  defaults and header fields are not promised.
- MrsMotionToRosbridgeStreamer.MotionImu: likewise, but HeadphoneMotionPub's
  `RosImu` stands in, with covariances `[-1, 0, …]` and a header with
  sequence number 0. At most one of the two stand-ins matches the target's
  `RosImu`.
- `RosPublisher`'s callbacks. `onSessionEstablished`,
  `onSessionDisconnected`, `onMotionPublished` and `onMotionPublishFailed`
  only forward platform results, so they are left out.
- AirSense's `HeadphoneTracker`. `deinit` and the error argument of the
  update handler are ignored by the code and not modelled.
- `HeadphoneTracker.isMotionAvailable` and `authorizationStatus`. These
  getters pass platform values through.
- The `print` in `updateState`, and `errorDescription` and `description`
  strings. They are diagnostics only.
- FaceTracker session details. The delegate queue, `session.pause()` on
  deinit and `worldAlignment = .camera` are not modelled; the last is
  constant, so the configuration holds only the format.
- `WebSocketTaskController.state` is publicly settable. Outside assignments
  are UI-driven and not modelled.
- `DeviceMotionTracker`, the SwiftUI views, `@AppStorage` and the URL
  formatters are not part of this model.
- The concrete encoder inside the streamers' contracts. The streamers' contracts
  hold for any encoder that never fails on an advertisement, and for any
  message builder. Lemmas such as `EncodeRequestFailsOnlyOnNumbers` and
  `SourceMessagesContents` tie them to the source's own encoder and builders.
- The `send` completion result in `RosPublisher.publishMotion`. It reaches
  only the callbacks left out above. A sample is modelled as its request
  rendered under the current counter.

## Findings

| source | as written | input that shows it | evidently intended | confidence | as-written member | corrected member |
|---|---|---|---|---|---|---|
| AirSense/RosbridgeUtilities.swift:24-27 | `Int(timeInterval - Double(sec)) * 1_000_000_000` truncates the fraction to 0 before scaling, so `usec` is always 0 | timeInterval 1.5 gives (1, 0) | scale the fraction, then truncate: (1, 500000000), as RosPublisher.swift:40 does | high (not executed) | AirSenseRosbridgeUtilities.AsWrittenDropsFraction | AirSenseRosbridgeUtilities.TimeFromInterval |
| HeadphoneMotionPub/RosbridgeUtilities.swift:23-26 | the same expression: `usec` is always 0 | timeInterval 2.25 gives (2, 0) | (2, 250000000) | high (not executed) | HmpRosbridgeUtilities.AsWrittenDropsFraction | HmpRosbridgeUtilities.TimeFromInterval |

The rest of the model uses the conversion as written, so every `RosImu` stamp the streamers publish has `usec` 0. `TimeFromInterval` is the corrected definition, with its intended property proved.
