/** The webhook-system lookup of middleware/proxyValidator.js. The environment
    is a map from variable name to value; the route parameter is `None` when
    missing. */
module ProxyValidator {
  import opened Js

  const WebhookPrefix: string := "DISCORD_WEBHOOK_"

  /** The outcome: 404 "Invalid system" without calling next, or next called
      once with `req.webhookUrl` set. */
  datatype Validation = InvalidSystem | Proceed(webhookUrl: string)

  /** The configuration key consulted for a system name. */
  function WebhookKey(system: string): string
  {
    WebhookPrefix + ToUpperCase(system)
  }

  /** `proxyValidator`: an empty or missing system name, or an unset or empty
      variable, is refused; otherwise the variable's value is the URL. */
  function Validate(system: Option<string>, env: map<string, string>): (r: Validation)
    ensures r.Proceed? <==> system.Some? && system.value != "" && WebhookKey(system.value) in env && env[WebhookKey(system.value)] != ""
    ensures r.Proceed? ==> r.webhookUrl == env[WebhookKey(system.value)]
  {
    var upper := if system.Some? then Some(ToUpperCase(system.value)) else None;
    if !Truthy(upper) || WebhookPrefix + upper.value !in env || env[WebhookPrefix + upper.value] == "" then InvalidSystem
    else Proceed(env[WebhookPrefix + upper.value])
  }

  /** System names that differ only in the case of their letters get the same
      outcome. */
  lemma CaseInsensitive(s: string, t: string, env: map<string, string>)
    requires |s| == |t|
    requires forall i :: 0 <= i < |s| ==> SameIgnoringCase(s[i], t[i])
    ensures Validate(Some(s), env) == Validate(Some(t), env)
  {
    UpperCaseIgnoresCase(s, t);
  }
}
