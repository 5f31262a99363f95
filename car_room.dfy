/**
 * The room's mutable state and the handlers that change it: the players in
 * the room, the bookmark stamped on outgoing events, and the car pipeline --
 * the instruction queue, the car-available flag and the periodic dispatcher
 * that sends one queued instruction per 50 ms tick.
 *
 * The outcome of each connection attempt to the car is a parameter, and the
 * dispatcher's tick is a method the caller invokes in place of the executor.
 */
module Room {
  import opened Results
  import opened JavaText
  import opened CarInstructions
  import opened Commands
  import opened RoomText

  const EXIT_CONTENT := "Run Away!"

  /** What a handler sends back to the players, with the bookmark it carries. */
  datatype Reply =
    | NoReply
      /** The room description, sent by the event builder to the player. */
    | Location(userid: string)
      /** A chat line, relayed by the event builder. */
    | ChatEvent(username: string, content: string)
      /** "playerLocation,<userid>,..." moving the player out through an exit. */
    | ExitEvent(userid: string, exitId: string, content: string, bookmark: int)
      /**
       * sendMessageToRoom: an event with text for the whole room, for one
       * player, or both; broadcast to every session exactly when there is
       * text for the room, otherwise sent to the player's own session.
       */
    | RoomEvent(broadcast: bool, userid: string, forRoom: Option<string>, forUser: Option<string>, bookmark: int)

  class CarRoom {
    var playersInRoom: set<string>
    /**
     * Stamped on outbound events. In the source it is one static counter
     * shared by every endpoint instance; here it is this instance's view of it.
     */
    var bookmark: int
    var carAvailable: bool
    /** The dispatcher's periodic task is scheduled and still running. */
    var dispatchScheduled: bool
    /** The car controller's executor has been shut down; it is never restarted. */
    var controllerShutdown: bool
    /** The queue between the command handlers and the dispatcher, head first. */
    var instructions: seq<CarInstruction>
    /** How many times a connection to the car has been attempted. */
    ghost var connectAttempts: nat

    ghost predicate Valid()
      reads this
    {
      && 0 <= bookmark
      && (dispatchScheduled ==> carAvailable && !controllerShutdown)
      && forall k :: 0 <= k < |instructions| ==> IsValid(instructions[k])
    }

    /**
     * A new endpoint instance. The shared bookmark is not reset: the
     * instance starts from whatever value the static counter has reached.
     */
    constructor (sharedBookmark: int)
      requires 0 <= sharedBookmark
      ensures Valid()
      ensures playersInRoom == {} && bookmark == sharedBookmark && instructions == []
      ensures !carAvailable && !dispatchScheduled && !controllerShutdown && connectAttempts == 0
    {
      playersInRoom := {};
      bookmark := sharedBookmark;
      carAvailable := false;
      dispatchScheduled := false;
      controllerShutdown := false;
      instructions := [];
      connectAttempts := 0;
    }

    /** sendMessageToRoom: stamps the event with the current bookmark and moves the bookmark on. */
    method SendMessageToRoom(forRoom: Option<string>, forUser: Option<string>, userid: string) returns (reply: Reply)
      requires Valid()
      modifies this`bookmark
      ensures Valid()
      ensures reply == RoomEvent(forRoom.Some?, userid, forRoom, forUser, old(bookmark))
      ensures bookmark == old(bookmark) + 1
    {
      reply := RoomEvent(forRoom.Some?, userid, forRoom, forUser, bookmark);
      bookmark := bookmark + 1;
    }

    /** addNewPlayer: the player is announced only when the id was not already in the room. */
    method AddNewPlayer(userid: string) returns (entered: bool)
      requires Valid()
      modifies this`playersInRoom
      ensures Valid()
      ensures entered <==> userid !in old(playersInRoom)
      ensures playersInRoom == old(playersInRoom) + {userid}
    {
      entered := userid !in playersInRoom;
      playersInRoom := playersInRoom + {userid};
    }

    /** removePlayer: the id leaves the set and the whole room is told, whether or not it was there. */
    method RemovePlayer(userid: string, username: string) returns (reply: Reply)
      requires Valid()
      modifies this`playersInRoom, this`bookmark
      ensures Valid()
      ensures playersInRoom == old(playersInRoom) - {userid}
      ensures reply == RoomEvent(true, userid, Some("Player " + username + " has left the room"), None, old(bookmark))
      ensures bookmark == old(bookmark) + 1
    {
      playersInRoom := playersInRoom - {userid};
      reply := SendMessageToRoom(Some("Player " + username + " has left the room"), None, userid);
    }

    /**
     * isCarAvailable: when the car is not known to be available, one
     * connection attempt is made; on success the flag is set and the
     * dispatcher scheduled -- unless the executor has been shut down, which
     * refuses the new task after the flag is already set.
     */
    method IsCarAvailable(connectOk: bool) returns (available: bool)
      requires Valid()
      modifies this`carAvailable, this`dispatchScheduled, this`connectAttempts
      ensures Valid()
      ensures available == carAvailable
      ensures old(carAvailable) ==>
        && carAvailable
        && connectAttempts == old(connectAttempts)
        && dispatchScheduled == old(dispatchScheduled)
      ensures !old(carAvailable) ==>
        && connectAttempts == old(connectAttempts) + 1
        && carAvailable == connectOk
        && dispatchScheduled == (connectOk && !controllerShutdown)
    {
      if !carAvailable {
        connectAttempts := connectAttempts + 1;
        if connectOk {
          carAvailable := true;
          if !controllerShutdown {
            dispatchScheduled := true;
          }
        }
      }
      available := carAvailable;
    }

    /**
     * sendToCar: the instruction is validated first; a rejected value is
     * reported without touching the connection. A valid one is queued only
     * when the car is available: one copy for a turn, twenty per second of
     * driving, all with the same id.
     */
    method SendToCar(userid: string, direction: CarDirection, value: int, id: string, connectOk: bool)
      returns (error: Option<string>)
      requires Valid()
      modifies this`instructions, this`carAvailable, this`dispatchScheduled, this`connectAttempts
      ensures Valid()
      ensures NewInstruction(id, userid, direction, value).Err? ==>
        && error == Some(NewInstruction(id, userid, direction, value).error)
        && instructions == old(instructions)
        && carAvailable == old(carAvailable) && dispatchScheduled == old(dispatchScheduled)
        && connectAttempts == old(connectAttempts)
      ensures NewInstruction(id, userid, direction, value).Ok? ==>
        && error == None
        && carAvailable == (old(carAvailable) || connectOk)
        && connectAttempts == old(connectAttempts) + (if old(carAvailable) then 0 else 1)
        && dispatchScheduled == (old(dispatchScheduled) || (!old(carAvailable) && connectOk && !controllerShutdown))
        && instructions == old(instructions) +
             (if carAvailable then Expand(NewInstruction(id, userid, direction, value).value) else [])
    {
      var made := NewInstruction(id, userid, direction, value);
      if made.Err? {
        return Some(made.error);
      }
      error := None;
      var instruction := made.value;
      var available := IsCarAvailable(connectOk);
      if !available {
        return;
      }
      var msgCount := 1;
      if direction == FORWARDS || direction == BACKWARDS {
        msgCount := value * 20;
      }
      ghost var queued := instructions;
      while msgCount > 0
        invariant 0 <= msgCount <= PulseCount(instruction)
        invariant instructions == queued + Repeat(instruction, PulseCount(instruction) - msgCount)
        invariant Valid()
        modifies this`instructions
      {
        instructions := instructions + [instruction];
        msgCount := msgCount - 1;
      }
    }

    /**
     * One run of the dispatcher's periodic task. Nothing happens once the
     * task is no longer scheduled or while the queue is empty; otherwise the
     * head of the queue is taken off and its text sent to the car.
     *
     * The task is scheduled only while the car is available (Valid), so the
     * availability check here never attempts a connection: connectOk is
     * never consulted and the rescheduling branch cannot be taken.
     */
    method Tick(connectOk: bool) returns (sent: Option<string>)
      requires Valid()
      modifies this`instructions, this`carAvailable, this`dispatchScheduled, this`connectAttempts
      ensures Valid()
      ensures carAvailable == old(carAvailable) && dispatchScheduled == old(dispatchScheduled)
      ensures connectAttempts == old(connectAttempts)
      ensures !old(dispatchScheduled) || old(instructions) == [] ==>
        sent == None && instructions == old(instructions)
      ensures old(dispatchScheduled) && old(instructions) != [] ==>
        sent == Some(ToJSON(old(instructions)[0])) && instructions == old(instructions)[1..]
    {
      sent := None;
      if dispatchScheduled && instructions != [] {
        var available := IsCarAvailable(connectOk);
        if available {
          var instruction := instructions[0];
          instructions := instructions[1..];
          sent := Some(ToJSON(instruction));
        } else {
          // rescheduling the delivery on the executor; the queue is left alone
        }
      }
    }

    /**
     * The car connection's onClose and onError handlers: the car is no
     * longer available and the controller's executor is shut down, which
     * cancels the periodic task for good. In the source these handlers exist
     * only once a connection to the car has been made; the model does not
     * require that of its caller.
     */
    method OnCarConnectionLost()
      requires Valid()
      modifies this`carAvailable, this`dispatchScheduled, this`controllerShutdown
      ensures Valid()
      ensures !carAvailable && !dispatchScheduled && controllerShutdown
    {
      carAvailable := false;
      controllerShutdown := true;
      dispatchScheduled := false;
    }

    /** The car's message handler: telemetry is relayed to the player named after its last space. */
    method OnCarMessage(message: string) returns (reply: Reply)
      requires Valid()
      modifies this`bookmark
      ensures Valid()
      ensures TelemetryUser(message).None? ==> reply == NoReply && bookmark == old(bookmark)
      ensures TelemetryUser(message).Some? ==>
        && reply == RoomEvent(false, TelemetryUser(message).value, None, Some(message), old(bookmark))
        && bookmark == old(bookmark) + 1
    {
      var pos := LastIndexOf(message, ' ');
      if pos != -1 {
        reply := SendMessageToRoom(None, Some(message), message[pos + 1..]);
      } else {
        reply := NoReply;
      }
    }

    /**
     * processCommand: acts on the classified content. Errors go back to the
     * player alone with the next bookmark; a valid car command goes to
     * sendToCar; look and chat go out through the event builder.
     */
    method ProcessCommand(userid: string, username: string, content: string, id: string, connectOk: bool)
      returns (reply: Reply)
      requires Valid()
      modifies this`bookmark, this`instructions, this`carAvailable, this`dispatchScheduled, this`connectAttempts
      ensures Valid()
      ensures !Classify(content).Car? ==>
        && instructions == old(instructions) && carAvailable == old(carAvailable)
        && dispatchScheduled == old(dispatchScheduled) && connectAttempts == old(connectAttempts)
      ensures Classify(content).Look? ==> reply == Location(userid) && bookmark == old(bookmark)
      ensures Classify(content).Chat? ==> reply == ChatEvent(username, content) && bookmark == old(bookmark)
      ensures Classify(content).Exit? ==>
        reply == ExitEvent(userid, Classify(content).exitId, EXIT_CONTENT, old(bookmark)) && bookmark == old(bookmark) + 1
      ensures Classify(content).CarParseError? ==> reply == RoomEvent(false, userid, None, Some(PARSE_ERROR), old(bookmark))
      ensures Classify(content).CarRangeError? ==> reply == RoomEvent(false, userid, None, Some(RANGE_ERROR), old(bookmark))
      ensures Classify(content).BadExit? ==> reply == RoomEvent(false, userid, None, Some(BAD_EXIT), old(bookmark))
      ensures Classify(content).Unrecognised? ==> reply == RoomEvent(false, userid, None, Some(UNRECOGNISED), old(bookmark))
      ensures (|| Classify(content).CarParseError? || Classify(content).CarRangeError?
               || Classify(content).BadExit? || Classify(content).Unrecognised?) ==>
        bookmark == old(bookmark) + 1
      ensures Classify(content).Car? ==>
        var made := NewInstruction(id, userid, Classify(content).direction, Classify(content).value);
        && (made.Err? ==>
             && reply == RoomEvent(false, userid, None, Some(made.error), old(bookmark))
             && bookmark == old(bookmark) + 1
             && instructions == old(instructions) && carAvailable == old(carAvailable)
             && dispatchScheduled == old(dispatchScheduled) && connectAttempts == old(connectAttempts))
        && (made.Ok? ==>
             && reply == NoReply && bookmark == old(bookmark)
             && carAvailable == (old(carAvailable) || connectOk)
             && connectAttempts == old(connectAttempts) + (if old(carAvailable) then 0 else 1)
             && dispatchScheduled == (old(dispatchScheduled) || (!old(carAvailable) && connectOk && !controllerShutdown))
             && instructions == old(instructions) + (if carAvailable then Expand(made.value) else []))
    {
      var command := Classify(content);
      match command
      case Look =>
        reply := Location(userid);
      case Car(direction, value) =>
        var error := SendToCar(userid, direction, value, id, connectOk);
        if error.Some? {
          reply := SendMessageToRoom(None, Some(error.value), userid);
        } else {
          reply := NoReply;
        }
      case CarParseError =>
        reply := SendMessageToRoom(None, Some(PARSE_ERROR), userid);
      case CarRangeError =>
        reply := SendMessageToRoom(None, Some(RANGE_ERROR), userid);
      case Exit(exitId) =>
        reply := ExitEvent(userid, exitId, EXIT_CONTENT, bookmark);
        bookmark := bookmark + 1;
      case BadExit =>
        reply := SendMessageToRoom(None, Some(BAD_EXIT), userid);
      case Unrecognised =>
        reply := SendMessageToRoom(None, Some(UNRECOGNISED), userid);
      case Chat(text) =>
        reply := ChatEvent(username, content);
    }
  }
}
