/**
 * A bot object's call into the request layer: `set_bot_variables` checks
 * its arguments and the bot's own variable list, then hands the update to
 * the variables endpoint.
 */
module BotCalls {
  import opened Values
  import Bots
  import Endpoints

  datatype VariableCall =
    | Sent(outcome: Endpoints.Outcome)    // the endpoint was called once
    | Warned(why: Bots.VariableUpdate)    // a warning, and no call

  /** `bot_obj.set_bot_variables`, followed into `set_bot_variables` of the endpoints. */
  function SetBotVariables(c: Endpoints.Client, b: Bots.Bot, variableNumber: string, name: string, value: string): (r: VariableCall)
    requires Bots.VariableList(Bots.Variables(b))
    ensures r.Sent? <==>
      && variableNumber != "" && name != "" && value != ""
      && exists k :: 0 <= k < |Bots.Variables(b).items| &&
           PyEq(Bots.VarNumber(Bots.Variables(b).items[k]), JStr(variableNumber))
    ensures r.Sent? ==> !Endpoints.Refused(r.outcome)
    ensures r.Sent? ==> Endpoints.Gated(c, r.outcome,
      Endpoints.Request(Endpoints.Put, Endpoints.VariableTarget(variableNumber), Endpoints.NoQuery,
                        Endpoints.Authorization(c), Endpoints.JsonText(Endpoints.VariablePayload(name, value))))
    ensures r.Warned? ==> (r.why.MissingArgument? <==> variableNumber == "" || name == "" || value == "")
  {
    match Bots.SetVariable(b, variableNumber, name, value)
    case Requested(n, nm, v) => Sent(Endpoints.SetBotVariables(c, n, nm, v))
    case other => Warned(other)
  }
}
