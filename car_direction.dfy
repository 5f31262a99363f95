/**
 * The top-level CarDirection enum: a constant table giving each direction a
 * throttle and a lock (steering) setting, and the text fragment that names
 * both. The room declares its own nested direction type that shadows this
 * one, so nothing in the room's pipeline reads this table.
 */
module CarDirection {
  import opened Results
  import opened JavaText

  /** The two constructor arguments of an enum constant, throttle first. */
  datatype Setting = Setting(throttle: int, lock: int)

  datatype CarDirection = LEFT | RIGHT | FORWARDS | BACKWARDS {

    /** LEFT(0, -100), RIGHT(0, 100), FORWARDS(20, 0), BACKWARDS(-75, 0) */
    function Args(): Setting {
      match this
      case LEFT => Setting(0, -100)
      case RIGHT => Setting(0, 100)
      case FORWARDS => Setting(20, 0)
      case BACKWARDS => Setting(-75, 0)
    }

    function Throttle(): int {
      Args().throttle
    }

    function Lock(): int {
      Args().lock
    }

    predicate IsSteering() {
      this == LEFT || this == RIGHT
    }

    /** The throttle, then the lock, in a form that reads back to the table row. */
    function ToJSON(): (r: string)
      ensures StartsWith(r, THROTTLE_KEY)
      ensures ParseSetting(r) == Some(Args())
    {
      RenderSettingRoundTrip(Throttle(), Lock());
      RenderSetting(Throttle(), Lock())
    }
  }

  const THROTTLE_KEY := "'throttle':"
  const TURNING_KEY := ",'turning':"

  /** "'throttle':" + throttle + ",'turning':" + lock */
  function RenderSetting(throttle: int, lock: int): string {
    THROTTLE_KEY + LongToString(throttle) + TURNING_KEY + LongToString(lock)
  }

  /**
   * Reads a throttle and a lock back out of the text RenderSetting prints:
   * the throttle runs from the key up to the first comma.
   */
  function ParseSetting(s: string): (r: Option<Setting>)
  {
    if !StartsWith(s, THROTTLE_KEY) then None
    else
      var rest := s[|THROTTLE_KEY|..];
      var comma := IndexOf(rest, ',', 0);
      if comma < 0 || !StartsWith(rest[comma..], TURNING_KEY) then None
      else
        match (ParseLong(rest[..comma]), ParseLong(rest[comma + |TURNING_KEY|..]))
        case (Some(t), Some(l)) => Some(Setting(t, l))
        case _ => None
  }

  /** Every pair of longs survives rendering and reading back. */
  lemma RenderSettingRoundTrip(throttle: int, lock: int)
    requires LONG_MIN <= throttle <= LONG_MAX && LONG_MIN <= lock <= LONG_MAX
    ensures StartsWith(RenderSetting(throttle, lock), THROTTLE_KEY)
    ensures ParseSetting(RenderSetting(throttle, lock)) == Some(Setting(throttle, lock))
  {
    var t, l := LongToString(throttle), LongToString(lock);
    var s := RenderSetting(throttle, lock);
    assert s[..|THROTTLE_KEY|] == THROTTLE_KEY;
    var rest := s[|THROTTLE_KEY|..];
    assert rest == t + TURNING_KEY + l;
    LongToStringHasNoComma(throttle);
    assert rest[|t|] == ',';
    assert IndexOf(rest, ',', 0) == |t|;
    assert rest[..|t|] == t;
    assert rest[|t|..] == TURNING_KEY + l;
    assert rest[|t| + |TURNING_KEY|..] == l;
    ParseLongToString(throttle);
    ParseLongToString(lock);
  }

  /** The steering constants have no throttle and the driving constants no lock. */
  lemma SteeringAndDrivingAreSeparate(d: CarDirection)
    ensures d.IsSteering() ==> d.Throttle() == 0 && d.Lock() != 0
    ensures !d.IsSteering() ==> d.Lock() == 0 && d.Throttle() != 0
  {
  }

  /** LEFT locks exactly as far as RIGHT, the other way. */
  lemma LeftMirrorsRight()
    ensures LEFT.Lock() == -RIGHT.Lock() && LEFT.Throttle() == RIGHT.Throttle()
  {
  }
}
