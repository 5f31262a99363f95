/**
 * processCommand's decision: what a player's room message asks for, decided
 * on its lower-cased content in a fixed order -- exactly "/look", then the
 * four car prefixes, then "/go", then any other "/", and otherwise chat.
 */
module Commands {
  import opened Results
  import opened JavaText
  import opened CarInstructions

  const LOOK := "/look"
  const GO := "/go"
  /** The exits the room lists. */
  const EXITS: seq<string> := ["n", "s", "e", "w", "u", "d"]

  const RANGE_ERROR := "ERROR : The car commands require an integer between 0 and 100"
  const PARSE_ERROR := "ERROR : The car commands require an integer as the second parameter"
  const BAD_EXIT := "Hmm. That direction didn't make sense. Try again?"
  const UNRECOGNISED := "Unrecognised command - sorry :-("

  datatype Command =
    | Look
    | Car(direction: CarDirection, value: int)
    | CarParseError
    | CarRangeError
    | Exit(exitId: string)
    | BadExit
    | Unrecognised
    | Chat(text: string)
  {
    predicate IsCar() {
      Car? || CarParseError? || CarRangeError?
    }

    predicate IsExitAttempt() {
      Exit? || BadExit?
    }
  }

  /** "/" + direction.name().toLowerCase() + " " */
  function CarPrefix(d: CarDirection): string {
    "/" + d.Name() + " "
  }

  /** The prefix is the declared name lower-cased, between a slash and a space. */
  lemma CarPrefixFromJavaName(d: CarDirection)
    ensures CarPrefix(d) == "/" + ToLower(d.JavaName()) + " "
    ensures StartsWith(CarPrefix(d), "/") && CarPrefix(d)[|CarPrefix(d)| - 1] == ' '
  {
    NameIsLowerCasedJavaName(d);
    assert CarPrefix(d)[..1] == "/";
  }

  predicate HasCarPrefix(lower: string) {
    StartsWith(lower, "/left ") || StartsWith(lower, "/right ")
      || StartsWith(lower, "/forwards ") || StartsWith(lower, "/backwards ")
  }

  /** The first direction, in the order given, whose prefix the content starts with. */
  function MatchCarPrefix(lower: string, ds: seq<CarDirection>): (r: Option<CarDirection>)
    ensures r.Some? ==> r.value in ds && StartsWith(lower, CarPrefix(r.value))
    ensures r.None? ==> forall d :: d in ds ==> !StartsWith(lower, CarPrefix(d))
  {
    if ds == [] then None
    else if StartsWith(lower, CarPrefix(ds[0])) then Some(ds[0])
    else MatchCarPrefix(lower, ds[1..])
  }

  /**
   * The two gates a car command's argument passes: Long.parseLong, then the
   * 0..100 range that processCommand checks for every direction.
   */
  function CarCommand(d: CarDirection, arg: string): (r: Command)
    ensures r.IsCar()
    ensures r.CarParseError? <==> ParseLong(arg).None?
    ensures r.CarRangeError? <==> ParseLong(arg).Some? && (ParseLong(arg).value < 0 || ParseLong(arg).value > 100)
    ensures r.Car? ==> r.direction == d && Some(r.value) == ParseLong(arg) && 0 <= r.value <= 100
  {
    match ParseLong(arg)
    case None => CarParseError
    case Some(v) => if v < 0 || v > 100 then CarRangeError else Car(d, v)
  }

  /**
   * The exit named by "/go" content: the text from index 4 on, so the
   * character at index 3 is skipped, and content of length 4 or less names
   * no exit at all.
   */
  function ExitOf(lower: string): (r: Option<string>)
    ensures r.Some? <==> |lower| > 4 && ToLower(lower[4..]) in EXITS
    ensures r.Some? ==> r.value == ToLower(lower[4..]) && r.value in EXITS
  {
    if |lower| > 4 then
      var exitDirection := ToLower(lower[4..]);
      if exitDirection in EXITS then Some(exitDirection) else None
    else None
  }

  /** The loop over CarDirection.values() finds a direction exactly when one of the four prefixes matches. */
  lemma MatchesSomePrefix(lower: string)
    ensures MatchCarPrefix(lower, DIRECTIONS).Some? <==> HasCarPrefix(lower)
  {
    assert CarPrefix(LEFT) == "/left ";
    assert CarPrefix(RIGHT) == "/right ";
    assert CarPrefix(FORWARDS) == "/forwards ";
    assert CarPrefix(BACKWARDS) == "/backwards ";
    assert forall d :: d in DIRECTIONS <==> d == LEFT || d == RIGHT || d == FORWARDS || d == BACKWARDS;
  }

  /** No content starts with two of the four car prefixes, so the loop's order among them does not matter. */
  lemma PrefixesExclusive(lower: string)
    ensures forall d, e :: d in DIRECTIONS && e in DIRECTIONS && StartsWith(lower, CarPrefix(d)) && StartsWith(lower, CarPrefix(e)) ==> d == e
  {
    forall d, e | d in DIRECTIONS && e in DIRECTIONS && StartsWith(lower, CarPrefix(d)) && StartsWith(lower, CarPrefix(e))
      ensures d == e
    {
      assert lower[1] == CarPrefix(d)[1] == CarPrefix(e)[1];
    }
  }

  /** A car command is a "/" command that is neither "/look" nor "/go...". */
  lemma CarPrefixExcludesOthers(lower: string)
    ensures HasCarPrefix(lower) ==> lower != LOOK && !StartsWith(lower, GO) && StartsWith(lower, "/")
  {
    if HasCarPrefix(lower) {
      var p :=
        if StartsWith(lower, "/left ") then "/left "
        else if StartsWith(lower, "/right ") then "/right "
        else if StartsWith(lower, "/forwards ") then "/forwards "
        else "/backwards ";
      assert StartsWith(lower, p) && |p| > |LOOK|;
      PrefixChar(lower, p, 0);
      PrefixChar(lower, p, 1);
      assert lower[..1] == "/";
      assert lower[1] != GO[1];
    }
  }

  /** "/go..." and "/look" are "/" commands, and different ones. */
  lemma GoAndLookAreCommands(lower: string)
    ensures StartsWith(lower, GO) ==> StartsWith(lower, "/") && lower != LOOK
    ensures lower == LOOK ==> StartsWith(lower, "/")
  {
    if StartsWith(lower, GO) {
      assert lower[..1] == "/";
      assert lower[1] == 'g' != LOOK[1];
    }
    if lower == LOOK {
      assert lower[..1] == "/";
    }
  }

  /** What processCommand does with a message's content. */
  function Classify(content: string): (r: Command)
    ensures r.Chat? ==> r.text == content
    ensures r.Car? ==> 0 <= r.value <= 100
    ensures r.Exit? ==> r.exitId in EXITS
  {
    var lower := ToLower(content);
    if lower == LOOK then Look
    else
      match MatchCarPrefix(lower, DIRECTIONS)
      case Some(d) => CarCommand(d, lower[|CarPrefix(d)|..])
      case None =>
        if StartsWith(lower, GO) then
          match ExitOf(lower)
          case Some(e) => Exit(e)
          case None => BadExit
        else if StartsWith(lower, "/") then Unrecognised
        else Chat(content)
  }

  /** Exactly "/look", in any case, is the look command. */
  lemma ClassifyLook(content: string)
    ensures Classify(content).Look? <==> ToLower(content) == LOOK
  {
    CarPrefixExcludesOthers(ToLower(content));
    MatchesSomePrefix(ToLower(content));
  }

  /**
   * Content that starts with a car prefix is a car command, whose argument
   * is what follows the prefix; nothing else is.
   */
  lemma ClassifyCar(content: string)
    ensures Classify(content).IsCar() <==> HasCarPrefix(ToLower(content))
    ensures forall d :: d in DIRECTIONS && StartsWith(ToLower(content), CarPrefix(d)) ==>
      Classify(content) == CarCommand(d, ToLower(content)[|CarPrefix(d)|..])
  {
    var lower := ToLower(content);
    CarPrefixExcludesOthers(lower);
    MatchesSomePrefix(lower);
    PrefixesExclusive(lower);
  }

  /** "/go..." that is not a car command is an exit attempt, valid only for a listed exit at index 4. */
  lemma ClassifyExit(content: string)
    ensures Classify(content).IsExitAttempt() <==>
      ToLower(content) != LOOK && !HasCarPrefix(ToLower(content)) && StartsWith(ToLower(content), GO)
    ensures Classify(content).Exit? ==> Some(Classify(content).exitId) == ExitOf(ToLower(content))
    ensures Classify(content).BadExit? ==> ExitOf(ToLower(content)).None?
  {
    var lower := ToLower(content);
    CarPrefixExcludesOthers(lower);
    MatchesSomePrefix(lower);
  }

  /** Any other "/" content is unrecognised, and everything else is chat. */
  lemma ClassifyRest(content: string)
    ensures Classify(content).Unrecognised? <==>
      !HasCarPrefix(ToLower(content)) && !StartsWith(ToLower(content), GO)
      && ToLower(content) != LOOK && StartsWith(ToLower(content), "/")
    ensures Classify(content).Chat? <==> !StartsWith(ToLower(content), "/")
  {
    var lower := ToLower(content);
    CarPrefixExcludesOthers(lower);
    MatchesSomePrefix(lower);
    GoAndLookAreCommands(lower);
  }

  /**
   * The exit is read from index 4: "/go n" and "/gonn" both leave by the
   * north exit, while "/gon" is too short to name one.
   */
  lemma GoSpaceNorth()
    ensures Classify("/GO N") == Exit("n")
  {
    assert ToLower("/GO N") == "/go n";
    assert ToLower("/go n"[4..]) == "n";
    ClassifyExit("/GO N");
  }

  lemma GoSkipsIndexThree()
    ensures Classify("/gonn") == Exit("n")
  {
    assert ToLower("/gonn") == "/gonn";
    assert ToLower("/gonn"[4..]) == "n";
    ClassifyExit("/gonn");
  }

  lemma GoNeedsFiveCharacters()
    ensures Classify("/gon") == BadExit
  {
    assert ToLower("/gon") == "/gon";
    ClassifyExit("/gon");
  }
}
