/**
 * The room's own car directions (the nested enum that shadows the top-level
 * CarDirection) and CarInstruction: one validated instruction for the car,
 * the text it is sent as, and the pulse train a command expands into.
 */
module CarInstructions {
  import opened Results
  import opened JavaText
  import Table = CarDirection

  datatype CarDirection = LEFT | RIGHT | FORWARDS | BACKWARDS {

    /** direction.name(): the constant's name as declared. */
    function JavaName(): string {
      match this
      case LEFT => "LEFT"
      case RIGHT => "RIGHT"
      case FORWARDS => "FORWARDS"
      case BACKWARDS => "BACKWARDS"
    }

    /** direction.name().toLowerCase() */
    function Name(): string {
      match this
      case LEFT => "left"
      case RIGHT => "right"
      case FORWARDS => "forwards"
      case BACKWARDS => "backwards"
    }

    predicate IsSteering() {
      this == LEFT || this == RIGHT
    }
  }

  /** Name() is the declared name lower-cased. */
  lemma NameIsLowerCasedJavaName(d: CarDirection)
    ensures d.Name() == ToLower(d.JavaName())
  {
    var lower := ToLower(d.JavaName());
    assert |lower| == |d.Name()|;
    forall k | 0 <= k < |lower|
      ensures lower[k] == d.Name()[k]
    {
      assert lower[k] == LowerChar(d.JavaName()[k]);
    }
  }

  /** CarDirection.values(), in declaration order. */
  const DIRECTIONS: seq<CarDirection> := [LEFT, RIGHT, FORWARDS, BACKWARDS]

  const STEER_ERROR := "ERROR : The left and right commands have an integer value between 0 and 100 (inclusive)"
  const DRIVE_ERROR := "ERROR : The forwards and backwards commands have an integer value between 0 and 10 (inclusive)"

  /** Pulses per second of driving; one pulse is dispatched per 50 ms tick. */
  const PULSES_PER_SECOND := 20
  const TICK_MILLIS := 50

  /** The id is the random UUID the source draws when the instruction is made. */
  datatype CarInstruction = CarInstruction(id: string, direction: CarDirection, userid: string, value: int)

  /** The largest value the constructor accepts for a direction. */
  function Limit(d: CarDirection): int {
    if d.IsSteering() then 100 else 10
  }

  /** An instruction the constructor would have let through. */
  predicate IsValid(i: CarInstruction) {
    0 <= i.value <= Limit(i.direction)
  }

  /** The constructor: it keeps its arguments, or throws with a message naming the bound. */
  function NewInstruction(id: string, userid: string, direction: CarDirection, value: int): (r: Result<CarInstruction, string>)
    ensures direction in {LEFT, RIGHT} ==> (r.Ok? <==> 0 <= value <= 100)
    ensures direction in {FORWARDS, BACKWARDS} ==> (r.Ok? <==> 0 <= value <= 10)
    ensures r.Ok? ==> IsValid(r.value) && r.value == CarInstruction(id, direction, userid, value)
    ensures r.Err? && direction in {LEFT, RIGHT} ==> r.error == STEER_ERROR
    ensures r.Err? && direction in {FORWARDS, BACKWARDS} ==> r.error == DRIVE_ERROR
  {
    match direction
    case LEFT | RIGHT =>
      if value < 0 || value > 100 then Err(STEER_ERROR) else Ok(CarInstruction(id, direction, userid, value))
    case FORWARDS | BACKWARDS =>
      if value < 0 || value > 10 then Err(DRIVE_ERROR) else Ok(CarInstruction(id, direction, userid, value))
  }

  /** "{'id':'<userid>', 'msggrp':'<id>'," */
  function Header(i: CarInstruction): string {
    "{'id':'" + i.userid + "', 'msggrp':'" + i.id + "',"
  }

  /** The direction-specific middle of toJSON. */
  function Field(i: CarInstruction): string {
    match i.direction
    case LEFT => "'turning':-" + LongToString(i.value)
    case RIGHT => "'turning':" + LongToString(i.value)
    case FORWARDS => "'throttle':20"
    case BACKWARDS => "'throttle':-70"
  }

  /** The text sent to the car for one instruction. */
  function ToJSON(i: CarInstruction): (r: string)
    ensures StartsWith(r, Header(i)) && |r| > |Header(i)| && r[|r| - 1] == '}'
    ensures r[|Header(i)|..|r| - 1] == Field(i)
  {
    var r := Header(i) + Field(i) + "}";
    assert r[..|Header(i)|] == Header(i);
    r
  }

  /** The signed turn the car is told to make: left is negative. */
  function Turning(i: CarInstruction): int {
    match i.direction
    case LEFT => -i.value
    case RIGHT => i.value
    case _ => 0
  }

  /** The throttle the car is told to apply. */
  function Throttle(i: CarInstruction): int {
    match i.direction
    case FORWARDS => 20
    case BACKWARDS => -70
    case _ => 0
  }

  const TURNING_KEY := "'turning':"
  const THROTTLE_KEY := "'throttle':"

  /** Reads a (throttle, turning) pair back out of an instruction's field; the absent one is 0. */
  function DecodeField(field: string): Option<(int, int)> {
    if StartsWith(field, TURNING_KEY) then
      match ParseLong(field[|TURNING_KEY|..])
      case Some(t) => Some((0, t))
      case None => None
    else if StartsWith(field, THROTTLE_KEY) then
      match ParseLong(field[|THROTTLE_KEY|..])
      case Some(t) => Some((t, 0))
      case None => None
    else None
  }

  lemma DecodeTurning(s: string, t: int)
    requires ParseLong(s) == Some(t)
    ensures DecodeField(TURNING_KEY + s) == Some((0, t))
  {
    assert (TURNING_KEY + s)[..|TURNING_KEY|] == TURNING_KEY;
    assert (TURNING_KEY + s)[|TURNING_KEY|..] == s;
  }

  lemma DecodeThrottle(s: string, t: int)
    requires ParseLong(s) == Some(t)
    ensures DecodeField(THROTTLE_KEY + s) == Some((t, 0))
  {
    var f := THROTTLE_KEY + s;
    assert f[..|THROTTLE_KEY|] == THROTTLE_KEY;
    assert f[|THROTTLE_KEY|..] == s;
    assert f[2] == 'h' != TURNING_KEY[2];
  }

  lemma LeftFieldDecodes(i: CarInstruction)
    requires i.direction == LEFT && IsValid(i)
    ensures DecodeField(Field(i)) == Some((Throttle(i), Turning(i)))
  {
    ParseNegated(i.value);
    DecodeTurning("-" + NatToString(i.value), -i.value);
    assert Field(i) == TURNING_KEY + ("-" + NatToString(i.value));
  }

  lemma RightFieldDecodes(i: CarInstruction)
    requires i.direction == RIGHT && IsValid(i)
    ensures DecodeField(Field(i)) == Some((Throttle(i), Turning(i)))
  {
    ParsePlain(i.value);
    DecodeTurning(NatToString(i.value), i.value);
    assert Field(i) == TURNING_KEY + NatToString(i.value);
  }

  lemma ForwardsFieldDecodes(i: CarInstruction)
    requires i.direction == FORWARDS
    ensures DecodeField(Field(i)) == Some((Throttle(i), Turning(i)))
  {
    assert "20"[..1] == "2" && "2"[..0] == "";
    assert DigitsValue("20") == 20 && Unsigned("20") == "20";
    DecodeThrottle("20", 20);
    assert Field(i) == THROTTLE_KEY + "20";
  }

  lemma BackwardsFieldDecodes(i: CarInstruction)
    requires i.direction == BACKWARDS
    ensures DecodeField(Field(i)) == Some((Throttle(i), Turning(i)))
  {
    assert "70"[..1] == "7" && "7"[..0] == "";
    assert DigitsValue("70") == 70 && Unsigned("-70") == "70";
    DecodeThrottle("-70", -70);
    assert Field(i) == THROTTLE_KEY + "-70";
  }

  /**
   * What a valid instruction sends reads back as its throttle and its signed
   * turn: LEFT n turns by -n, RIGHT n by n, FORWARDS drives at 20 and
   * BACKWARDS at -70.
   */
  lemma ToJSONDecodes(i: CarInstruction)
    requires IsValid(i)
    ensures var j := ToJSON(i); DecodeField(j[|Header(i)|..|j| - 1]) == Some((Throttle(i), Turning(i)))
  {
    match i.direction
    case LEFT => LeftFieldDecodes(i);
    case RIGHT => RightFieldDecodes(i);
    case FORWARDS => ForwardsFieldDecodes(i);
    case BACKWARDS => BackwardsFieldDecodes(i);
  }

  /**
   * The number of copies sendToCar queues: one for a turn, twenty per
   * second of driving, so that a pulse train at one pulse per tick lasts
   * exactly the requested number of seconds.
   */
  function PulseCount(i: CarInstruction): (n: nat)
    requires IsValid(i)
    ensures i.direction.IsSteering() ==> n == 1
    ensures !i.direction.IsSteering() ==> n * TICK_MILLIS == i.value * 1000 && n <= 200
  {
    if i.direction == FORWARDS || i.direction == BACKWARDS then i.value * PULSES_PER_SECOND else 1
  }

  /** n copies of x. */
  function Repeat<T>(x: T, n: nat): (r: seq<T>)
    ensures |r| == n
    ensures forall k :: 0 <= k < n ==> r[k] == x
  {
    if n == 0 then [] else Repeat(x, n - 1) + [x]
  }

  /** The pulse train an instruction becomes in the queue. */
  function Expand(i: CarInstruction): (r: seq<CarInstruction>)
    requires IsValid(i)
    ensures |r| == PulseCount(i)
    ensures forall k :: 0 <= k < |r| ==> r[k] == i
  {
    Repeat(i, PulseCount(i))
  }

  /**
   * The table in CarDirection.java agrees with what is sent for FORWARDS but
   * not for BACKWARDS: the table says -75, the instruction sends -70.
   */
  lemma TableAgainstInstructions(i: CarInstruction)
    ensures i.direction == FORWARDS ==> Throttle(i) == Table.CarDirection.FORWARDS.Throttle()
    ensures i.direction == BACKWARDS ==> Throttle(i) == Table.CarDirection.BACKWARDS.Throttle() + 5
  {
  }
}
