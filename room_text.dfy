/**
 * The room's string utilities: splitting a routed message into its
 * comma-separated routing fields and JSON body, trimming a close reason,
 * and finding the player a line of car telemetry is meant for.
 */
module RoomText {
  import opened Results
  import opened JavaText

  /** The longest reason text a WebSocket close frame may carry here. */
  const CLOSE_REASON_LIMIT := 123

  /** The parts written out with a comma between each two. */
  function Join(parts: seq<string>): string {
    if |parts| == 0 then ""
    else if |parts| == 1 then parts[0]
    else Join(parts[..|parts| - 1]) + "," + parts[|parts| - 1]
  }

  /** Cutting off one more field keeps the parts so far equal to the text consumed so far. */
  lemma JoinStep(message: string, list: seq<string>, i: nat, j: nat)
    requires i <= j < |message| && message[j] == ','
    requires list == [] <==> i == 0
    requires list != [] ==> Join(list) + "," == message[..i]
    ensures Join(list + [message[i..j]]) + "," == message[..j + 1]
  {
    var next := list + [message[i..j]];
    assert message[..j + 1] == message[..i] + message[i..j] + ",";
    if list != [] {
      assert next[..|next| - 1] == list;
    }
  }

  /** The parts so far and the rest of the message join to the whole message. */
  lemma JoinLast(message: string, list: seq<string>, i: nat)
    requires i <= |message|
    requires list == [] <==> i == 0
    requires list != [] ==> Join(list) + "," == message[..i]
    ensures Join(list + [message[i..]]) == message
  {
    var parts := list + [message[i..]];
    if list != [] {
      assert parts[..|parts| - 1] == list;
      assert message == message[..i] + message[i..];
    }
  }

  /** The text between the cursor and the next comma holds no comma. */
  lemma FieldHasNoComma(message: string, i: nat, j: int)
    requires i <= |message| && j == IndexOf(message, ',', i) && j >= 0
    ensures ',' !in message[i..j]
  {
    forall k | 0 <= k < j - i
      ensures message[i..j][k] != ','
    {
      assert message[i..j][k] == message[i + k];
    }
  }

  /**
   * When the loop stops without a comma at index 0, no comma is left
   * between the cursor and the first '{'.
   */
  lemma NoCommaLeft(message: string, i: nat, j: int, brace: int)
    requires i <= |message| && j == IndexOf(message, ',', i) && brace < |message|
    requires !(j > 0 && j < brace)
    requires i > 0 || |message| == 0 || message[0] != ','
    ensures forall k :: i <= k < brace ==> message[k] != ','
  {
  }

  /**
   * splitRouting: cuts the message at every comma that lies before its first
   * '{', so that a JSON body keeps its own commas. A comma at index 0 stops
   * the cutting before it starts.
   */
  method SplitRouting(message: string) returns (parts: seq<string>)
    ensures |parts| >= 1
    ensures Join(parts) == message
    ensures forall k :: 0 <= k < |parts| - 1 ==> ',' !in parts[k]
    ensures |parts| > 1 ==> |message| - |parts[|parts| - 1]| - 1 < IndexOf(message, '{', 0)
    ensures (|message| == 0 || message[0] != ',') ==>
      forall k :: |message| - |parts[|parts| - 1]| <= k < IndexOf(message, '{', 0) ==> message[k] != ','
    ensures IndexOf(message, '{', 0) == -1 ==> parts == [message]
    ensures |message| > 0 && message[0] == ',' ==> parts == [message]
  {
    var brace := IndexOf(message, '{', 0);
    var list: seq<string> := [];
    var i := 0;
    var j := IndexOf(message, ',', 0);
    while j > 0 && j < brace
      invariant 0 <= i <= |message|
      invariant j == IndexOf(message, ',', i)
      invariant list == [] <==> i == 0
      invariant list != [] ==> Join(list) + "," == message[..i] && i - 1 < brace
      invariant forall k :: 0 <= k < |list| ==> ',' !in list[k]
      invariant |message| > 0 && message[0] == ',' ==> list == []
      decreases |message| - i
    {
      JoinStep(message, list, i, j);
      FieldHasNoComma(message, i, j);
      list := list + [message[i..j]];
      i := j + 1;
      j := IndexOf(message, ',', i);
    }
    JoinLast(message, list, i);
    parts := list + [message[i..]];
    assert parts[..|parts| - 1] == list;
    assert |message| - |parts[|parts| - 1]| == i;
    if |message| == 0 || message[0] != ',' {
      NoCommaLeft(message, i, j, brace);
    }
  }

  /** trimReason: a close reason cut down to the first 123 characters. */
  function TrimReason(message: string): (r: string)
    ensures |r| <= CLOSE_REASON_LIMIT
    ensures StartsWith(message, r)
    ensures |message| <= CLOSE_REASON_LIMIT ==> r == message
    ensures |message| > CLOSE_REASON_LIMIT ==> |r| == CLOSE_REASON_LIMIT
  {
    if |message| > CLOSE_REASON_LIMIT then message[..CLOSE_REASON_LIMIT] else message
  }

  /**
   * The player a line of telemetry from the car is for: the text after its
   * last space. A line without a space is for nobody and is dropped.
   */
  function TelemetryUser(message: string): (r: Option<string>)
    ensures r.None? <==> ' ' !in message
    ensures r.Some? ==> ' ' !in r.value && |r.value| < |message|
    ensures r.Some? ==> message[|message| - |r.value| - 1] == ' ' && message[|message| - |r.value|..] == r.value
  {
    var pos := LastIndexOf(message, ' ');
    if pos == -1 then None else Some(message[pos + 1..])
  }
}
