/** The example greeting script: a time-of-day greeting for a name.
    The clock read is replaced by an `hour` parameter (0..23 from the
    caller's clock). */
module Greet {
  import opened Wrappers
  import opened Strings

  datatype DayPart = Morning | Afternoon | Evening

  /** The three-way bucketing of the hour. */
  function PartOfDay(hour: int): (p: DayPart)
    ensures p == Morning <==> hour < 12
    ensures p == Afternoon <==> 12 <= hour < 18
    ensures p == Evening <==> 18 <= hour
  {
    if hour < 12 then Morning
    else if hour < 18 then Afternoon
    else Evening
  }

  function Salutation(p: DayPart): string {
    match p
    case Morning => "Good morning"
    case Afternoon => "Good afternoon"
    case Evening => "Good evening"
  }

  const Wave: string := "\U{1F44B}"
  const DefaultName: string := "World"

  /** generate_greeting(name) at the given hour. */
  function GenerateGreeting(name: string, hour: int): (r: string)
    ensures StartsWith(r, Salutation(PartOfDay(hour)) + ", ")
    ensures EndsWith(r, "! " + Wave)
    ensures |r| == |Salutation(PartOfDay(hour))| + 2 + |name| + 3
  {
    Salutation(PartOfDay(hour)) + ", " + name + "! " + Wave
  }

  /** The name can be read back from the greeting: the greeting is
      "<salutation>, " + name + "! <wave>" and nothing else. */
  lemma {:induction false} NameOfGreeting(name: string, hour: int)
    ensures var r := GenerateGreeting(name, hour);
            var k := |Salutation(PartOfDay(hour))| + 2;
            r[k..|r| - 3] == name
  {
    var r := GenerateGreeting(name, hour);
    var g := Salutation(PartOfDay(hour)) + ", ";
    assert r == g + name + "! " + Wave;
    assert r[|g|..|g| + |name|] == name;
  }

  /** Two greetings at the same hour are equal exactly when the names are. */
  lemma GreetingInjective(a: string, b: string, hour: int)
    ensures GenerateGreeting(a, hour) == GenerateGreeting(b, hour) <==> a == b
  {
    if GenerateGreeting(a, hour) == GenerateGreeting(b, hour) {
      NameOfGreeting(a, hour);
      NameOfGreeting(b, hour);
    }
  }

  /** main(): the `--name` option defaults to "World"; the exit status is 0. */
  function Run(nameOption: Option<string>, hour: int): (r: (string, int))
    ensures r.1 == 0
    ensures nameOption.None? ==> StartsWith(r.0, Salutation(PartOfDay(hour)) + ", World!")
    ensures nameOption.Some? ==> r.0 == GenerateGreeting(nameOption.value, hour)
  {
    var name := if nameOption.Some? then nameOption.value else DefaultName;
    (GenerateGreeting(name, hour), 0)
  }
}
