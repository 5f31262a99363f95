/**
 * End-to-end runs of the room: a player's command goes through
 * processCommand into the queue, and dispatcher ticks send it to the car.
 * Each run uses the first endpoint instance after class load, when the
 * shared bookmark is still 0.
 */
module Scenarios {
  import opened Results
  import opened JavaText
  import opened CarInstructions
  import opened Commands
  import opened Room

  lemma LeftFiftyIsCarCommand()
    ensures Classify("/left 50") == Car(LEFT, 50)
  {
    assert ToLower("/left 50") == "/left 50";
    assert StartsWith("/left 50", CarPrefix(LEFT));
    assert "/left 50"[|CarPrefix(LEFT)|..] == "50";
    assert "50"[..1] == "5" && "5"[..0] == "";
    assert ParseLong("50") == Some(50);
    ClassifyCar("/left 50");
  }

  lemma FiftyPrints()
    ensures LongToString(50) == "50"
  {
    assert NatToString(50) == NatToString(5) + "0";
  }

  lemma LeftFiftyText()
    ensures ToJSON(CarInstruction("m1", LEFT, "alice", 50)) == "{'id':'alice', 'msggrp':'m1','turning':-50}"
  {
    var i := CarInstruction("m1", LEFT, "alice", 50);
    FiftyPrints();
    calc {
      ToJSON(i);
      Header(i) + Field(i) + "}";
      "{'id':'alice', 'msggrp':'m1'," + "'turning':-" + "50" + "}";
    }
  }

  /** "/left 50" with the car reachable: one instruction, turning by -50, sent on the next tick. */
  method LeftFifty() returns (reply: Reply, sent: Option<string>, left: nat)
    ensures reply == NoReply
    ensures sent == Some("{'id':'alice', 'msggrp':'m1','turning':-50}")
    ensures left == 0
  {
    var room := new CarRoom(0);
    LeftFiftyIsCarCommand();
    reply := room.ProcessCommand("alice", "Alice", "/left 50", "m1", true);
    sent := room.Tick(true);
    LeftFiftyText();
    left := |room.instructions|;
  }

  lemma CarCommandIs(content: string, d: CarDirection, arg: string, v: int)
    requires ToLower(content) == CarPrefix(d) + arg
    requires ParseLong(arg) == Some(v)
    ensures Classify(content) == CarCommand(d, arg)
  {
    var lower := ToLower(content);
    assert lower[..|CarPrefix(d)|] == CarPrefix(d);
    assert lower[|CarPrefix(d)|..] == arg;
    ClassifyCar(content);
  }

  lemma ForwardsTwoIsCarCommand()
    ensures Classify("/forwards 2") == Car(FORWARDS, 2)
  {
    assert ToLower("/forwards 2") == CarPrefix(FORWARDS) + "2";
    assert "2"[..0] == "";
    CarCommandIs("/forwards 2", FORWARDS, "2", 2);
  }

  lemma RightOneFiftyIsOutOfRange()
    ensures Classify("/right 150") == CarRangeError
  {
    assert ToLower("/right 150") == CarPrefix(RIGHT) + "150";
    assert "150"[..2] == "15" && "15"[..1] == "1" && "1"[..0] == "";
    CarCommandIs("/right 150", RIGHT, "150", 150);
  }

  lemma ForwardsFiftyPassesTheFirstGate()
    ensures Classify("/forwards 50") == Car(FORWARDS, 50)
  {
    assert ToLower("/forwards 50") == CarPrefix(FORWARDS) + "50";
    assert "50"[..1] == "5" && "5"[..0] == "";
    CarCommandIs("/forwards 50", FORWARDS, "50", 50);
  }

  lemma ForwardsOneIsCarCommand()
    ensures Classify("/forwards 1") == Car(FORWARDS, 1)
  {
    assert ToLower("/forwards 1") == CarPrefix(FORWARDS) + "1";
    assert "1"[..0] == "";
    CarCommandIs("/forwards 1", FORWARDS, "1", 1);
  }

  lemma ForwardsTwoText()
    ensures ToJSON(CarInstruction("m2", FORWARDS, "bob", 2)) == "{'id':'bob', 'msggrp':'m2','throttle':20}"
  {
    var i := CarInstruction("m2", FORWARDS, "bob", 2);
    calc {
      ToJSON(i);
      Header(i) + Field(i) + "}";
      "{'id':'bob', 'msggrp':'m2'," + "'throttle':20" + "}";
    }
  }

  /**
   * "/forwards 2" with the car reachable: forty pulses are queued, and forty
   * ticks send them all, each driving at throttle 20.
   */
  method ForwardsTwo() returns (queued: nat, sent: seq<string>, left: nat)
    ensures queued == 40 && left == 0
    ensures |sent| == 40
    ensures forall k :: 0 <= k < |sent| ==> sent[k] == "{'id':'bob', 'msggrp':'m2','throttle':20}"
  {
    var room := new CarRoom(0);
    ForwardsTwoIsCarCommand();
    var instruction := CarInstruction("m2", FORWARDS, "bob", 2);
    assert NewInstruction("m2", "bob", FORWARDS, 2) == Ok(instruction);
    var reply := room.ProcessCommand("bob", "Bob", "/forwards 2", "m2", true);
    queued := |room.instructions|;
    ForwardsTwoText();
    sent := TickUntilEmpty(room, instruction);
    left := |room.instructions|;
  }

  /** Ticks a room whose queue holds copies of one instruction until it is empty. */
  method TickUntilEmpty(room: CarRoom, instruction: CarInstruction) returns (sent: seq<string>)
    requires room.Valid() && room.dispatchScheduled
    requires forall k :: 0 <= k < |room.instructions| ==> room.instructions[k] == instruction
    modifies room`instructions, room`carAvailable, room`dispatchScheduled, room`connectAttempts
    ensures room.instructions == []
    ensures |sent| == old(|room.instructions|)
    ensures forall k :: 0 <= k < |sent| ==> sent[k] == ToJSON(instruction)
  {
    sent := [];
    while room.instructions != []
      invariant room.Valid() && room.dispatchScheduled
      invariant |sent| + |room.instructions| == old(|room.instructions|)
      invariant forall k :: 0 <= k < |room.instructions| ==> room.instructions[k] == instruction
      invariant forall k :: 0 <= k < |sent| ==> sent[k] == ToJSON(instruction)
      decreases |room.instructions|
    {
      var out := room.Tick(true);
      sent := sent + [out.value];
    }
  }

  /** "/right 150" is refused before anything is queued, with the 0 to 100 message. */
  method RightOneFifty() returns (reply: Reply, queued: nat)
    ensures reply == RoomEvent(false, "carol", None, Some(RANGE_ERROR), 0)
    ensures queued == 0
  {
    var room := new CarRoom(0);
    RightOneFiftyIsOutOfRange();
    reply := room.ProcessCommand("carol", "Carol", "/right 150", "m3", true);
    queued := |room.instructions|;
  }

  /**
   * "/forwards 50" passes processCommand's 0 to 100 gate but the instruction
   * refuses it; the car is not even contacted.
   */
  method ForwardsFifty() returns (reply: Reply, queued: nat, available: bool)
    ensures reply == RoomEvent(false, "dave", None, Some(DRIVE_ERROR), 0)
    ensures queued == 0 && !available
  {
    var room := new CarRoom(0);
    ForwardsFiftyPassesTheFirstGate();
    reply := room.ProcessCommand("dave", "Dave", "/forwards 50", "m4", true);
    queued := |room.instructions|;
    available := room.carAvailable;
  }

  /**
   * The car drops its connection five ticks into a one-second drive. The
   * fifteen undelivered pulses stay queued, and a later command reconnects
   * and queues more, but the dispatcher was shut down with the connection
   * and no tick ever sends again.
   */
  method DisconnectMidQueue() returns (stranded: nat, reconnected: bool, sent: Option<string>, after: nat)
    ensures stranded == 15 && reconnected
    ensures sent == None && after == 16
  {
    var room := new CarRoom(0);
    ForwardsOneIsCarCommand();
    var reply := room.ProcessCommand("erin", "Erin", "/forwards 1", "m5", true);
    var n := 0;
    while n < 5
      invariant 0 <= n <= 5
      invariant room.Valid() && room.dispatchScheduled
      invariant |room.instructions| == 20 - n
    {
      var out := room.Tick(true);
      n := n + 1;
    }
    room.OnCarConnectionLost();
    stranded := |room.instructions|;
    LeftFiftyIsCarCommand();
    reply := room.ProcessCommand("erin", "Erin", "/left 50", "m6", true);
    reconnected := room.carAvailable;
    sent := room.Tick(true);
    after := |room.instructions|;
  }

  lemma RightFiftyIsCarCommand()
    ensures Classify("/right 50") == Car(RIGHT, 50)
  {
    assert ToLower("/right 50") == CarPrefix(RIGHT) + "50";
    assert "50"[..1] == "5" && "5"[..0] == "";
    CarCommandIs("/right 50", RIGHT, "50", 50);
  }

  /** Two commands from two players are sent in the order they were given. */
  method FirstInFirstOut() returns (first: Option<string>, second: Option<string>, left: nat)
    ensures first == Some(ToJSON(CarInstruction("m1", LEFT, "alice", 50)))
    ensures second == Some(ToJSON(CarInstruction("m7", RIGHT, "frank", 50)))
    ensures left == 0
  {
    var room := new CarRoom(0);
    LeftFiftyIsCarCommand();
    RightFiftyIsCarCommand();
    var a := CarInstruction("m1", LEFT, "alice", 50);
    var b := CarInstruction("m7", RIGHT, "frank", 50);
    assert NewInstruction("m1", "alice", LEFT, 50) == Ok(a) && Expand(a) == [a];
    assert NewInstruction("m7", "frank", RIGHT, 50) == Ok(b) && Expand(b) == [b];
    var reply := room.ProcessCommand("alice", "Alice", "/left 50", "m1", true);
    assert room.instructions == [a] && room.dispatchScheduled;
    reply := room.ProcessCommand("frank", "Frank", "/right 50", "m7", true);
    assert room.instructions == [a, b];
    first := room.Tick(true);
    second := room.Tick(true);
    left := |room.instructions|;
  }
}
