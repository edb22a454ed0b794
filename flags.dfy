/** Command-line action check of the Go program (`parse_flags`). */
module Flags {
  import Common

  /** Default of the `-a` flag when none is given. */
  const DEFAULT_ACTION: string := "<none>"

  /** The actions `parse_flags` lets through. */
  const OKAY_ACTIONS: seq<string> := ["monitor", "review", "train", "record"]

  /** What `parse_flags` does with the parsed action: go on, or print the help
      text and then die with the offending action in the message. */
  datatype FlagOutcome =
    | Proceed(action: string)
    | HelpThenDie(message: string)

  method ParseFlags(action: string) returns (outcome: FlagOutcome)
    ensures outcome.Proceed? <==> action == "monitor" || action == "review" || action == "train" || action == "record"
    ensures outcome.Proceed? ==> outcome.action == action
    ensures outcome.HelpThenDie? ==> outcome.message == "Unexpected Action: " + action
  {
    var ok := Common.InList(action, OKAY_ACTIONS);
    if !ok {
      return HelpThenDie("Unexpected Action: " + action);
    }
    return Proceed(action);
  }

  /** Running without `-a` is refused; so are upper-case spellings. */
  method ParseFlagsExamples()
  {
    var o := ParseFlags(DEFAULT_ACTION);
    assert o.HelpThenDie?;
    o := ParseFlags("MONITOR");
    assert o.HelpThenDie?;
    o := ParseFlags("record");
    assert o == Proceed("record");
  }
}
