/**
 * The policy decision of the JWT authorizer (src/authorizer/app.js): from the
 * payload of an already verified token to an IAM policy that allows or denies
 * `execute-api:Invoke` on the requested method ARN.
 */
module Authorizer {
  import opened Wrappers
  import opened JsValues

  /** The claims the decision reads: `cognito:groups` and `cognito:username`. */
  datatype TokenPayload = TokenPayload(groups: seq<string>, username: Option<string>)

  datatype Statement = Statement(action: string, effect: string, resource: string)

  datatype PolicyDocument = PolicyDocument(version: string, statements: seq<Statement>)

  datatype Policy = Policy(principalId: string, policyDocument: PolicyDocument, context: Option<Json>)

  /** JavaScript truthiness of an optional string: present and not empty. */
  predicate Present(s: Option<string>)
  {
    s.Some? && s.value != ""
  }

  /** True when the policy is a single statement with the given effect. */
  predicate HasEffect(p: Policy, effect: string)
  {
    |p.policyDocument.statements| == 1 && p.policyDocument.statements[0].effect == effect
  }

  /**
   * generatePolicy: an effect other than Allow or Deny becomes Deny; a missing
   * principal becomes "unauthorized" and turns an Allow into a Deny.
   */
  function GeneratePolicy(arn: string, effect: string, principal: Option<string>, context: Option<Json>): (p: Policy)
    ensures p.policyDocument.version == "2012-10-17"
    ensures |p.policyDocument.statements| == 1
    ensures p.policyDocument.statements[0].action == "execute-api:Invoke"
    ensures p.policyDocument.statements[0].resource == arn
    ensures p.context == context
    ensures HasEffect(p, "Allow") || HasEffect(p, "Deny")
    ensures HasEffect(p, "Allow") <==> effect == "Allow" && Present(principal)
    ensures Present(principal) ==> p.principalId == principal.value
    ensures !Present(principal) ==> p.principalId == "unauthorized"
  {
    var normalised := if effect != "Allow" && effect != "Deny" then "Deny" else effect;
    var principalId := if Present(principal) then principal.value else "unauthorized";
    var finalEffect := if !Present(principal) && normalised == "Allow" then "Deny" else normalised;
    Policy(principalId,
           PolicyDocument("2012-10-17", [Statement("execute-api:Invoke", finalEffect, arn)]),
           context)
  }

  /** generateAllow. */
  function GenerateAllow(arn: string, principal: Option<string>, context: Option<Json>): (p: Policy)
    ensures HasEffect(p, "Allow") <==> Present(principal)
  {
    GeneratePolicy(arn, "Allow", principal, context)
  }

  /** generateDeny: never allows, and carries no context. */
  function GenerateDeny(arn: string, principal: Option<string>): (p: Policy)
    ensures HasEffect(p, "Deny") && p.context == None
  {
    GeneratePolicy(arn, "Deny", principal, None)
  }

  function GeneratePolicyForAdministrator(token: TokenPayload, arn: string): (p: Policy)
    ensures HasEffect(p, "Allow") <==> Present(token.username)
  {
    GenerateAllow(arn, token.username, None)
  }

  function GeneratePolicyForPointOfSale(token: TokenPayload, arn: string): (p: Policy)
    ensures HasEffect(p, "Deny")
  {
    GenerateDeny(arn, token.username)
  }

  function GeneratePolicyForUser(token: TokenPayload, arn: string): (p: Policy)
    ensures HasEffect(p, "Deny")
  {
    GenerateDeny(arn, token.username)
  }

  /** generatePolicyForValidToken: the first of admin, point-of-sale, user found in the groups decides. */
  function GeneratePolicyForValidToken(token: TokenPayload, arn: string): (p: Policy)
    ensures p.context == None
    ensures |p.policyDocument.statements| == 1 && p.policyDocument.statements[0].resource == arn
    ensures HasEffect(p, "Allow") ==>
      "admin" in token.groups && Present(token.username) && p.principalId == token.username.value
    ensures "admin" !in token.groups ==> HasEffect(p, "Deny")
  {
    if "admin" in token.groups then GeneratePolicyForAdministrator(token, arn)
    else if "point-of-sale" in token.groups then GeneratePolicyForPointOfSale(token, arn)
    else if "user" in token.groups then GeneratePolicyForUser(token, arn)
    else GenerateDeny(arn, None)
  }

  /** The overall decision: Allow exactly when the groups contain admin and a username is present. */
  lemma AllowIffAdminWithUsername(token: TokenPayload, arn: string)
    ensures var p := GeneratePolicyForValidToken(token, arn);
      HasEffect(p, "Allow") <==> "admin" in token.groups && Present(token.username)
    ensures var p := GeneratePolicyForValidToken(token, arn);
      HasEffect(p, "Allow") || HasEffect(p, "Deny")
  {
  }

  /** Group priority: admin over point-of-sale over user. */
  lemma GroupPriority(token: TokenPayload, arn: string)
    ensures "admin" in token.groups ==>
      GeneratePolicyForValidToken(token, arn) == GeneratePolicyForAdministrator(token, arn)
    ensures "admin" !in token.groups && "point-of-sale" in token.groups ==>
      GeneratePolicyForValidToken(token, arn) == GeneratePolicyForPointOfSale(token, arn)
    ensures "admin" !in token.groups && "point-of-sale" !in token.groups && "user" in token.groups ==>
      GeneratePolicyForValidToken(token, arn) == GeneratePolicyForUser(token, arn)
  {
  }

  /** Point-of-sale and user tokens are denied, under their own username when there is one. */
  lemma NonAdminGroupsDenied(token: TokenPayload, arn: string)
    requires "admin" !in token.groups
    requires "point-of-sale" in token.groups || "user" in token.groups
    ensures var p := GeneratePolicyForValidToken(token, arn);
      HasEffect(p, "Deny") && p.principalId == (if Present(token.username) then token.username.value else "unauthorized")
  {
  }

  /** A token in no recognised group is denied with principal "unauthorized". */
  lemma NoRecognisedGroupDenied(token: TokenPayload, arn: string)
    requires "admin" !in token.groups && "point-of-sale" !in token.groups && "user" !in token.groups
    ensures var p := GeneratePolicyForValidToken(token, arn);
      HasEffect(p, "Deny") && p.principalId == "unauthorized" && p.context == None
  {
  }

  /** Any resulting policy has one Invoke statement on the requested ARN and version 2012-10-17. */
  lemma PolicyShape(token: TokenPayload, arn: string)
    ensures var p := GeneratePolicyForValidToken(token, arn);
      p.policyDocument.version == "2012-10-17" && |p.policyDocument.statements| == 1 &&
      p.policyDocument.statements[0].action == "execute-api:Invoke" &&
      p.policyDocument.statements[0].resource == arn && p.context == None
  {
  }
}
