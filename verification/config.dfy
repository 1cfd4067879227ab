/** The process configuration the send-email tool reads from its environment
    once, at import time, held here as an explicit value.
 */
module Config {
  import opened Wrappers
  import opened Js
  import Split

  /** `RESEND_API_KEY`, `SENDER_EMAIL_ADDRESS` and `REPLY_TO_EMAIL_ADDRESSES`;
      `None` is an unset variable. */
  datatype Config = Config(
    apiKey: Option<string>,
    sender: Option<string>,
    replyToEnv: Option<string>)

  /** The Resend client is created only for a truthy API key. */
  predicate HasClient(cfg: Config) {
    Truthy(cfg.apiKey)
  }

  /** The default reply-to list: empty when the variable is unset or empty,
      otherwise the variable split on ',' with no trimming. */
  function ParseReplyTo(env: Option<string>): (r: seq<string>)
    ensures !Truthy(env) ==> r == []
    ensures Truthy(env) ==>
              |r| >= 1 && Split.SeparatorFree(r, ',') && Split.Join(r, ',') == env.value
  {
    if Truthy(env) then
      Split.JoinSplit(env.value, ',');
      Split.Split(env.value, ',')
    else []
  }

  /** The default list is empty exactly when the variable is unset or empty. */
  lemma ParseReplyToEmptyIff(env: Option<string>)
    ensures ParseReplyTo(env) == [] <==> !Truthy(env)
  {
  }

  /** A set variable is recovered from its parsed list by joining with ','. */
  lemma ParseReplyToRoundTrip(s: string)
    requires s != ""
    ensures Split.Join(ParseReplyTo(Some(s)), ',') == s
  {
  }

  /** Every non-empty list of comma-free addresses is the parse of its own join. */
  lemma ParseReplyToOfJoin(addresses: seq<string>)
    requires |addresses| >= 1 && Split.SeparatorFree(addresses, ',')
    requires Split.Join(addresses, ',') != ""
    ensures ParseReplyTo(Some(Split.Join(addresses, ','))) == addresses
  {
    Split.SplitJoin(addresses, ',');
  }

  /** Two addresses separated by a comma parse to the two addresses. */
  lemma ParseReplyToTwoAddresses()
    ensures ParseReplyTo(Some("a@x.com,b@x.com")) == ["a@x.com", "b@x.com"]
  {
    var parts := ["a@x.com", "b@x.com"];
    assert Split.SeparatorFree(parts, ',');
    assert Split.Join(parts[1..], ',') == "b@x.com";
    assert Split.Join(parts, ',') == "a@x.com,b@x.com";
    ParseReplyToOfJoin(parts);
  }
}
