/**
 * What the two AI forms share from their schema library and form library:
 * a minimum-length string rule and the one message a field shows.
 */
module FormResolver {
  import opened Wrappers

  /** `z.string().min(min, { message })`: no issue when the value is long enough, else that one message. */
  function MinLengthIssues(value: string, min: nat, message: string): (issues: seq<string>)
    ensures issues == [] <==> |value| >= min
    ensures issues != [] ==> issues == [message]
  {
    if |value| >= min then [] else [message]
  }

  /** The message a field shows after the resolver ran: its first issue, or none. */
  function FirstIssue(issues: seq<string>): (m: Option<string>)
    ensures m.None? <==> issues == []
    ensures m.Some? ==> m.value == issues[0]
  {
    if issues == [] then None else Some(issues[0])
  }
}
