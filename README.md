# Car room model

A Dafny model of the car room of the Game On! text adventure. The room is a
WebSocket endpoint. Players in it chat, look around, leave through an exit,
or drive a remote-controlled car with `/left n`, `/right n`, `/forwards n`
and `/backwards n`. A car command becomes a validated `CarInstruction`.
The instruction is copied into a queue as a train of pulses: one pulse for
a turn, twenty per second of driving. A dispatcher takes one pulse off the
queue every 50 ms and sends its JSON text to the car. Telemetry lines from
the car go back to the player whose id ends the line.

The model is split into modules that follow the program:

- `JavaText`: the parts of `java.lang.String` and `java.lang.Long` the room
  relies on (`toLowerCase`, `startsWith`, `indexOf`, `lastIndexOf`,
  `Long.parseLong`, `Long.toString`). Parsing undoes printing for every
  long; the reverse does not hold, since "+07" and "007" both parse to 7.
- `CarDirection`: the top-level enum's constant table and its `toJSON`.
- `CarInstructions`: the room's nested direction enum, and `CarInstruction`'s
  constructor checks, JSON text and pulse count.
- `Commands`: how `processCommand` classifies a message's content. This is a
  pure function, with lemmas for each outcome.
- `RoomText`: `splitRouting` (a loop, modelled as a method), `trimReason`,
  and the telemetry addressee.
- `Room`: the class `CarRoom`, holding the state the handlers update. That
  state is the players in the room, the bookmark, the car-available flag,
  the dispatcher's scheduling, the shut-down executor and the instruction
  queue. Its methods are `processCommand`, `sendToCar`, `isCarAvailable`,
  the dispatcher's tick, the car connection's close, error and message
  handlers, `addNewPlayer`, `removePlayer` and `sendMessageToRoom`.
- `Scenarios`: whole runs through the room, with their outcomes proved.

The outside world is passed in as parameters:

- Whether a connection attempt to the car succeeds is a `connectOk`
  parameter.
- The random UUID of an instruction is an `id` parameter.
- The executor's periodic task is the method `Tick`, which the caller
  invokes once per 50 ms period.
- Events the room sends come back as a `Reply` value. The value records
  whether the event is broadcast and which bookmark it carries.

Notable behaviour of the code, which the model keeps:

- A `/go` exit is read from index 4 of the lower-cased content, and only
  when the content is longer than four characters. So `/gon` is a bad exit,
  and `/gonn` leaves by `n`.
- Closing the car connection, or an error on it, shuts the car
  controller's executor down for good. A later command reconnects and sets
  the car-available flag. But the periodic task is refused by the shut-down
  executor, so the instructions queued afterwards are never delivered.
  `Room.CarRoom.IsCarAvailable` and `Scenarios.DisconnectMidQueue` state
  this.
- The top-level `CarDirection` table is shadowed by the room's nested enum.
  Its BACKWARDS throttle of -75 is never sent; an instruction sends -70.

## Model

| member | source | states |
|---|---|---|
| JavaText.ToLower | carroom-app/src/main/java/net/wasdev/gameon/carroom/CarRoom.java:250 | the lower-cased content has the same length, and each character is the lower-case form of the original character |
| JavaText.ToLowerIdempotent | carroom-app/src/main/java/net/wasdev/gameon/carroom/CarRoom.java:288 | lower-casing the exit text again, as the source does, changes nothing |
| JavaText.StartsWith | carroom-app/src/main/java/net/wasdev/gameon/carroom/CarRoom.java:264 | startsWith: the prefix fits and the string's leading slice equals it; StartsWithByChars restates this character by character |
| JavaText.StartsWithByChars | carroom-app/src/main/java/net/wasdev/gameon/carroom/CarRoom.java:285 | a string starts with a prefix exactly when the prefix is no longer and agrees with it at every index |
| JavaText.IndexOf | carroom-app/src/main/java/net/wasdev/gameon/carroom/CarRoom.java:351-357 | indexOf returns the first index at or after `from` that holds the character, or -1 exactly when there is none |
| JavaText.LastIndexOf | carroom-app/src/main/java/net/wasdev/gameon/carroom/CarRoom.java:598 | lastIndexOf returns -1 exactly when the character is absent; otherwise it returns the index of the last occurrence |
| JavaText.ParseLong | carroom-app/src/main/java/net/wasdev/gameon/carroom/CarRoom.java:267 | Long.parseLong succeeds exactly on an optional sign followed by at least one digit whose signed decimal value lies within the long range, and then returns that value; anything else is the NumberFormatException |
| JavaText.NatToString | carroom-app/src/main/java/net/wasdev/gameon/carroom/CarRoom.java:496-498 | a printed number is non-empty, is all digits and carries no sign |
| JavaText.NatToStringValue | carroom-app/src/main/java/net/wasdev/gameon/carroom/CarRoom.java:496-498 | the printed digits of n have the value n |
| JavaText.ParseLongToString | carroom-app/src/main/java/net/wasdev/gameon/carroom/CarRoom.java:496-498 | parsing the decimal text of any long gives the long back |
| JavaText.LongToString | carroom-app/src/main/java/net/wasdev/gameon/carroom/CarRoom.java:496-498 | what a long prints as in string concatenation; its contract is stated by ParseLongToString (it parses back to the long) and LongToStringHasNoComma |
| JavaText.ParseNegated | carroom-app/src/main/java/net/wasdev/gameon/carroom/CarRoom.java:496 | "-" followed by the digits of m parses to -m, which is how a LEFT value reads back |
| JavaText.ParsePlain | carroom-app/src/main/java/net/wasdev/gameon/carroom/CarRoom.java:498 | the digits of m parse to m |
| JavaText.LongToStringHasNoComma | carroom-app/src/main/java/net/wasdev/gameon/carroom/CarDirection.java:30 | a printed long never holds a comma, so the comma after the throttle ends it |
| CarDirection.CarDirection.ToJSON | carroom-app/src/main/java/net/wasdev/gameon/carroom/CarDirection.java:19-31 | each constant's text starts with the throttle key and reads back to exactly that constant's (throttle, lock) row |
| CarDirection.RenderSettingRoundTrip | carroom-app/src/main/java/net/wasdev/gameon/carroom/CarDirection.java:29-31 | for every pair of longs, the text "'throttle':t,'turning':l" reads back to (t, l) |
| CarDirection.SteeringAndDrivingAreSeparate | carroom-app/src/main/java/net/wasdev/gameon/carroom/CarDirection.java:19 | the steering constants have throttle 0 and a non-zero lock; the driving constants have lock 0 and a non-zero throttle |
| CarDirection.LeftMirrorsRight | carroom-app/src/main/java/net/wasdev/gameon/carroom/CarDirection.java:19 | LEFT locks as far as RIGHT, the other way, at the same throttle |
| CarInstructions.NewInstruction | carroom-app/src/main/java/net/wasdev/gameon/carroom/CarRoom.java:470-489 | a turn is accepted exactly when its value is in 0..100, and a drive exactly when its value is in 0..10; an accepted instruction keeps its arguments and is valid; a refused one carries the message naming its direction group's bound |
| CarInstructions.ToJSON | carroom-app/src/main/java/net/wasdev/gameon/carroom/CarRoom.java:491-506 | the text opens with the user id and message-group header, closes with '}', and holds exactly the direction's field in between |
| CarInstructions.ToJSONDecodes | carroom-app/src/main/java/net/wasdev/gameon/carroom/CarRoom.java:494-502 | the field of a valid instruction reads back as its throttle and signed turn: LEFT n turns by -n, RIGHT n by n, FORWARDS drives at 20, BACKWARDS at -70 |
| CarInstructions.PulseCount | carroom-app/src/main/java/net/wasdev/gameon/carroom/CarRoom.java:532-535 | a turn is one pulse; n seconds of driving is a pulse train that lasts exactly n seconds at one pulse per 50 ms tick, and has at most 200 pulses |
| CarInstructions.Repeat | carroom-app/src/main/java/net/wasdev/gameon/carroom/CarRoom.java:537-543 | the loop's puts add exactly n copies of the instruction |
| CarInstructions.Expand | carroom-app/src/main/java/net/wasdev/gameon/carroom/CarRoom.java:532-543 | the pulse train has PulseCount elements, and every element is the instruction itself |
| CarInstructions.TableAgainstInstructions | carroom-app/src/main/java/net/wasdev/gameon/carroom/CarDirection.java:19 | the table's FORWARDS throttle is what an instruction sends; its BACKWARDS throttle (-75) is 5 below what an instruction sends (-70) |
| CarInstructions.CarDirection.JavaName | carroom-app/src/main/java/net/wasdev/gameon/carroom/CarRoom.java:460-462 | name(): each constant's name as declared |
| CarInstructions.CarDirection.Name | carroom-app/src/main/java/net/wasdev/gameon/carroom/CarRoom.java:263 | name().toLowerCase(); NameIsLowerCasedJavaName states it |
| CarInstructions.NameIsLowerCasedJavaName | carroom-app/src/main/java/net/wasdev/gameon/carroom/CarRoom.java:263 | each direction's lower-case name is exactly its declared name lower-cased |
| Commands.CarPrefix | carroom-app/src/main/java/net/wasdev/gameon/carroom/CarRoom.java:263 | the prefix a car command must start with; CarPrefixFromJavaName states it |
| Commands.CarPrefixFromJavaName | carroom-app/src/main/java/net/wasdev/gameon/carroom/CarRoom.java:263-264 | the prefix is "/", the declared name lower-cased, and " "; so it starts with "/" and ends with a space |
| Commands.MatchCarPrefix | carroom-app/src/main/java/net/wasdev/gameon/carroom/CarRoom.java:262-264 | the loop over the directions finds a direction whose prefix the content starts with, or reports that no direction's prefix matches |
| Commands.CarCommand | carroom-app/src/main/java/net/wasdev/gameon/carroom/CarRoom.java:266-280 | an argument that does not parse is a parse error; a parsed value outside 0..100 is a range error; otherwise it is the car command with that direction and the parsed value |
| Commands.ExitOf | carroom-app/src/main/java/net/wasdev/gameon/carroom/CarRoom.java:286-291 | an exit is named exactly when the content is longer than 4 characters and its lower-cased text from index 4 on is a listed exit |
| Commands.MatchesSomePrefix | carroom-app/src/main/java/net/wasdev/gameon/carroom/CarRoom.java:262-264 | the loop finds a direction exactly when the content starts with one of the four car prefixes |
| Commands.PrefixesExclusive | carroom-app/src/main/java/net/wasdev/gameon/carroom/CarRoom.java:262-264 | no content starts with two different car prefixes, so the loop order does not matter |
| Commands.CarPrefixExcludesOthers | carroom-app/src/main/java/net/wasdev/gameon/carroom/CarRoom.java:255-310 | a car prefix is a "/" command that is neither "/look" nor "/go" |
| Commands.GoAndLookAreCommands | carroom-app/src/main/java/net/wasdev/gameon/carroom/CarRoom.java:255-310 | "/look" and "/go..." start with "/" and are different commands |
| Commands.Classify | carroom-app/src/main/java/net/wasdev/gameon/carroom/CarRoom.java:245-315 | chat keeps the original, un-lowered content; a car command's value is in 0..100; a named exit is a listed one |
| Commands.ClassifyLook | carroom-app/src/main/java/net/wasdev/gameon/carroom/CarRoom.java:255-260 | content is the look command exactly when its lower-cased form is "/look" |
| Commands.ClassifyCar | carroom-app/src/main/java/net/wasdev/gameon/carroom/CarRoom.java:262-283 | content is a car command (or one of its two errors) exactly when it starts with a car prefix; the outcome is decided by the text after that prefix |
| Commands.ClassifyExit | carroom-app/src/main/java/net/wasdev/gameon/carroom/CarRoom.java:285-304 | content is an exit attempt exactly when it starts with "/go" and is neither "/look" nor a car command; the exit, or the bad-exit error, is what ExitOf gives |
| Commands.ClassifyRest | carroom-app/src/main/java/net/wasdev/gameon/carroom/CarRoom.java:306-314 | any other "/" content is unrecognised, and content not starting with "/" is chat, both as if-and-only-if |
| Commands.GoSpaceNorth | carroom-app/src/main/java/net/wasdev/gameon/carroom/CarRoom.java:285-289 | "/GO N" leaves by exit "n" |
| Commands.GoSkipsIndexThree | carroom-app/src/main/java/net/wasdev/gameon/carroom/CarRoom.java:285-289 | "/gonn" also leaves by "n", because index 3 is skipped |
| Commands.GoNeedsFiveCharacters | carroom-app/src/main/java/net/wasdev/gameon/carroom/CarRoom.java:287-292 | "/gon" is too short to name an exit and gets the bad-exit message |
| RoomText.SplitRouting | carroom-app/src/main/java/net/wasdev/gameon/carroom/CarRoom.java:348-362 | the parts joined by commas give the message back; no part before the last holds a comma; every cut lies before the first '{', and no further comma before that '{' was left uncut; a message without '{', or one starting with ',', stays in one piece |
| RoomText.TrimReason | carroom-app/src/main/java/net/wasdev/gameon/carroom/CarRoom.java:421-423 | the reason is a prefix of the message and at most 123 characters long; it is the message itself when that fits, otherwise exactly its first 123 characters |
| RoomText.TelemetryUser | carroom-app/src/main/java/net/wasdev/gameon/carroom/CarRoom.java:598-601 | there is no addressee exactly when the line has no space; otherwise the addressee is the space-free text after the last space |
| Room.CarRoom.constructor | carroom-app/src/main/java/net/wasdev/gameon/carroom/CarRoom.java:519-522 | a new endpoint instance has no players and an empty queue; the car is unavailable and no dispatcher is scheduled or shut down; the bookmark continues from the shared counter's current value |
| Room.CarRoom.SendMessageToRoom | carroom-app/src/main/java/net/wasdev/gameon/carroom/CarRoom.java:321-342 | the event carries the current bookmark, which then moves on by one; the event is broadcast exactly when there is text for the room |
| Room.CarRoom.AddNewPlayer | carroom-app/src/main/java/net/wasdev/gameon/carroom/CarRoom.java:214-230 | the player is announced exactly when the id was not already in the room; afterwards the id is in the set |
| Room.CarRoom.RemovePlayer | carroom-app/src/main/java/net/wasdev/gameon/carroom/CarRoom.java:233-242 | the id leaves the set, and the whole room is told, with the next bookmark |
| Room.CarRoom.IsCarAvailable | carroom-app/src/main/java/net/wasdev/gameon/carroom/CarRoom.java:546-580 | a connection is attempted only when the car is not already available; a successful attempt sets the flag and schedules the dispatcher, unless the executor is shut down; the result is the flag |
| Room.CarRoom.SendToCar | carroom-app/src/main/java/net/wasdev/gameon/carroom/CarRoom.java:524-544 | a refused value is reported without any connection attempt; a valid instruction appends its whole pulse train to the queue if the car is, or becomes, available, and appends nothing otherwise |
| Room.CarRoom.Tick | carroom-app/src/main/java/net/wasdev/gameon/carroom/CarRoom.java:553-572 | a scheduled tick with a non-empty queue takes off the head and sends its JSON text; otherwise it does nothing; the flags are unchanged |
| Room.CarRoom.OnCarConnectionLost | carroom-app/src/main/java/net/wasdev/gameon/carroom/CarRoom.java:612-628 | after a close or an error, the car is unavailable and the dispatcher is cancelled and permanently shut down |
| Room.CarRoom.OnCarMessage | carroom-app/src/main/java/net/wasdev/gameon/carroom/CarRoom.java:596-607 | a telemetry line with a space goes, with the next bookmark, to the player named after its last space; a line without a space is dropped |
| Room.CarRoom.ProcessCommand | carroom-app/src/main/java/net/wasdev/gameon/carroom/CarRoom.java:245-315 | for each kind of content: the reply, the bookmark step and the car state, including the instruction's own error, queuing and dispatcher scheduling for a car command; non-car content leaves the car state alone |
| Scenarios.LeftFiftyText | carroom-app/src/main/java/net/wasdev/gameon/carroom/CarRoom.java:491-497 | LEFT 50 is sent as "{'id':'alice', 'msggrp':'m1','turning':-50}" |
| Scenarios.LeftFifty | carroom-app/src/main/java/net/wasdev/gameon/carroom/CarRoom.java:262-272 | "/left 50" queues one pulse, and one tick sends it |
| Scenarios.ForwardsTwo | carroom-app/src/main/java/net/wasdev/gameon/carroom/CarRoom.java:532-561 | "/forwards 2" queues 40 pulses, and 40 ticks send them all at throttle 20 |
| Scenarios.RightOneFifty | carroom-app/src/main/java/net/wasdev/gameon/carroom/CarRoom.java:268-269 | "/right 150" gets the 0 to 100 message and queues nothing |
| Scenarios.ForwardsFifty | carroom-app/src/main/java/net/wasdev/gameon/carroom/CarRoom.java:482-486 | "/forwards 50" passes the command's 0..100 gate, but the instruction refuses it with the 0 to 10 message before the car is contacted |
| Scenarios.DisconnectMidQueue | carroom-app/src/main/java/net/wasdev/gameon/carroom/CarRoom.java:612-628 | after a disconnect, 15 pulses stay queued; a later command reconnects, but no tick sends again |
| Scenarios.FirstInFirstOut | carroom-app/src/main/java/net/wasdev/gameon/carroom/CarRoom.java:522 | commands from two players are sent to the car in the order they were given |

## Left out

- Reading the incoming JSON (`getValue`, the `roomHello`/`room`/`roomGoodbye` routing) is not modelled. The handlers take the user id, user name and content as parameters.
- The event builder's JSON is not modelled: the location, player and chat events and the room description. These events appear only as `Reply` values.
- Sessions, `broadcast` and `sendRemoteTextMessage` are not modelled, nor the close attempts after a failed send. Their only modelled part is `trimReason`.
- Room.CarRoom.AddNewPlayer: does not model the per-session "already seen" check on the session's user properties, because session properties are not part of the model.
- Room.CarRoom.Tick: does not model a failed `sendText` after `take()`. In the source that pulse is lost and only logged; in the model every taken pulse is sent.
- Room.CarRoom.Tick: does not model the extra periodic task scheduled when the car is unavailable. In the model that case leaves the queue alone.
- Concurrency is not modelled: `synchronized`, the `volatile` flag, the blocking queue and the dispatcher thread. Handlers and ticks run one at a time, in the order the caller chooses.
- An interrupted `put` is not modelled.
- Room.CarRoom.constructor: the model follows one endpoint instance. In the source the bookmark is a static counter shared by every instance (one per connection); here it is a field of the instance, started from the counter's value when the instance is made. Events stamped by other instances in between are not modelled.
- Room.CarRoom.SendMessageToRoom: the bookmark is an unbounded integer, so the 64-bit wrap-around of the source's `long` after 2^63 events is not modelled.
- JavaText.ToLower: maps ASCII letters only. Unicode case mapping is not modelled.
- JavaText.ParseLong: accepts ASCII digits only. The other Unicode decimal digits that `Long.parseLong` also accepts are not modelled.
- String lengths count characters, not Java's UTF-16 code units. So `trimReason`'s 123-unit bound is stated on characters.
- Logging and console output are not modelled.
- `connectToCar` is not modelled: the endpoint URI, the WebSocket container and `onOpen`. The outcome of each connection attempt is the `connectOk` parameter.
- The `default` branch of `CarInstruction.toJSON` is not modelled, because a value of the closed enum never reaches it.
- `RegistrationListener` and `CarRoomPicture` are not part of this model.
