/**
 * The profile server: two authenticated POST endpoints that store the
 * client's profile in the identity provider's app metadata, and the cached
 * management-API token they use to do so. The network is not modelled:
 * the token endpoint's answer and the outcome of the metadata update are
 * parameters, and so is the current time `now` in milliseconds.
 */
module Server {
  import opened Wrappers
  import opened Text

  /** A JSON value as express.json() parses a request body. */
  datatype Json =
    | JNull
    | JBool(b: bool)
    | JNum(n: int)
    | JStr(s: string)
    | JArr(items: seq<Json>)
    | JObj(fields: map<string, Json>)

  /** JavaScript falsiness of a parsed JSON value (`!value`). */
  predicate Falsy(j: Json) {
    j == JNull || j == JBool(false) || j == JNum(0) || j == JStr("")
  }

  /** Printed indices are distinct, so they can serve as property names. */
  lemma NatToStringInjective(i: nat, j: nat)
    requires NatToString(i) == NatToString(j)
    ensures i == j
  {
    DigitsOfNat(i);
    DigitsOfNat(j);
  }

  /** The own enumerable properties that `{...value}` copies. */
  function SpreadFields(j: Json): map<string, Json> {
    match j
    case JObj(fields) => fields
    case JArr(items) =>
      assert forall a: nat, b: nat :: NatToString(a) == NatToString(b) ==> a == b by {
        forall a: nat, b: nat | NatToString(a) == NatToString(b) ensures a == b {
          NatToStringInjective(a, b);
        }
      }
      map i: nat | i < |items| :: NatToString(i) := items[i]
    case JStr(s) =>
      assert forall a: nat, b: nat :: NatToString(a) == NatToString(b) ==> a == b by {
        forall a: nat, b: nat | NatToString(a) == NatToString(b) ensures a == b {
          NatToStringInjective(a, b);
        }
      }
      map i: nat | i < |s| :: NatToString(i) := JStr([s[i]])
    case _ => map[]
  }

  /**
   * The app metadata both endpoints store: the completion flag, and the
   * client's profile with `userId` and the completion flag written after
   * the spread, so that they override whatever the client sent.
   */
  function BuildMetadata(profile: Json, sub: string): (m: Json)
    ensures m.JObj? && m.fields.Keys == {"hasCompletedOnboarding", "profile"}
    ensures m.fields["hasCompletedOnboarding"] == JBool(true)
    ensures m.fields["profile"].JObj?
  {
    var stored := SpreadFields(profile)["userId" := JStr(sub)]["hasCompletedOnboarding" := JBool(true)];
    JObj(map["hasCompletedOnboarding" := JBool(true), "profile" := JObj(stored)])
  }

  /**
   * Whatever the client sends, the stored profile belongs to the token's
   * subject and is marked complete, and an object profile keeps every other
   * property it had, unchanged.
   */
  lemma MetadataProfile(profile: Json, sub: string)
    ensures var stored := BuildMetadata(profile, sub).fields["profile"].fields;
      stored["userId"] == JStr(sub)
      && stored["hasCompletedOnboarding"] == JBool(true)
      && (profile.JObj? ==>
            stored.Keys == profile.fields.Keys + {"userId", "hasCompletedOnboarding"}
            && forall k :: k in profile.fields && k != "userId" && k != "hasCompletedOnboarding" ==>
                 stored[k] == profile.fields[k])
  {
  }

  /** What the token endpoint answered: a failure, or the parsed body's two fields, either of which may be missing. */
  datatype TokenResponse = TokenFailed | TokenReceived(accessToken: Option<string>, expiresIn: Option<int>)

  /** How the metadata update went: an exception before a response, a non-ok response, or an ok one. */
  datatype PatchOutcome = PatchThrew | PatchNotOk(text: string) | PatchOk

  /** The request updateUserMetadata sends. */
  datatype PatchRequest = PatchRequest(userId: string, bearer: Option<string>, appMetadata: Json)

  datatype Endpoint = CompleteOnboarding | UpdateProfile

  datatype Reply = Reply(status: int, body: map<string, Json>)

  function SuccessMessage(e: Endpoint): string {
    match e
    case CompleteOnboarding => "Onboarding completed successfully"
    case UpdateProfile => "Profile updated successfully"
  }

  function FailureMessage(e: Endpoint): string {
    match e
    case CompleteOnboarding => "Failed to complete onboarding"
    case UpdateProfile => "Failed to update profile"
  }

  /** The cached token may be reused: it is set and non-empty, and now is before its expiry (missing means NaN). */
  predicate Fresh(token: Option<string>, expiresAt: Option<int>, now: int) {
    token.Some? && token.value != "" && expiresAt.Some? && now < expiresAt.value
  }

  /** `now + (expires_in - 300) * 1000`: the provider's lifetime less five minutes; NaN when it is missing. */
  function ExpiryFrom(now: int, expiresIn: Option<int>): (t: Option<int>)
    ensures t.None? <==> expiresIn.None?
    ensures t.Some? ==> t.value == now + expiresIn.value * 1000 - 300000
  {
    match expiresIn
    case None => None
    case Some(e) => Some(now + (e - 300) * 1000)
  }

  /**
   * A token fetched at `fetchedAt` with lifetime `e` seconds is reused
   * exactly until five minutes before the provider's expiry.
   */
  lemma FreshUntilFiveMinutesBefore(token: string, fetchedAt: int, e: int, now: int)
    requires token != ""
    ensures Fresh(Some(token), ExpiryFrom(fetchedAt, Some(e)), now) <==> now < fetchedAt + e * 1000 - 5 * 60 * 1000
  {
  }

  class Server {
    var managementToken: Option<string>
    var tokenExpiresAt: Option<int>

    constructor ()
      ensures managementToken == None && tokenExpiresAt == Some(0)
    {
      managementToken := None;
      tokenExpiresAt := Some(0);
    }

    /**
     * getManagementToken: the cached token while it is fresh, with no
     * request; otherwise the fetched token, cached with its expiry. `None`
     * is the exception a failed fetch throws.
     */
    method GetManagementToken(now: int, response: TokenResponse) returns (token: Option<Option<string>>)
      modifies this
      ensures Fresh(old(managementToken), old(tokenExpiresAt), now) ==>
        token == Some(old(managementToken)) && managementToken == old(managementToken)
        && tokenExpiresAt == old(tokenExpiresAt)
      ensures !Fresh(old(managementToken), old(tokenExpiresAt), now) && response.TokenFailed? ==>
        token.None? && managementToken == old(managementToken) && tokenExpiresAt == old(tokenExpiresAt)
      ensures !Fresh(old(managementToken), old(tokenExpiresAt), now) && response.TokenReceived? ==>
        token == Some(response.accessToken) && managementToken == response.accessToken
        && tokenExpiresAt == ExpiryFrom(now, response.expiresIn)
    {
      if Fresh(managementToken, tokenExpiresAt, now) {
        return Some(managementToken);
      }
      if response.TokenFailed? {
        return None;
      }
      managementToken := response.accessToken;
      tokenExpiresAt := ExpiryFrom(now, response.expiresIn);
      token := Some(managementToken);
    }

    /**
     * One of the two POST endpoints, for the subject `sub` of a valid JWT:
     * 400 with "Profile data is required" and nothing touched when the body
     * has no truthy `profile`;
     * otherwise the metadata is built and sent with the management token
     * (the cached one while fresh, else a newly fetched one, which is then
     * cached), and the reply is 200 when the update succeeded and 500 when
     * getting the token or updating failed.
     */
    method Post(endpoint: Endpoint, sub: string, body: map<string, Json>, now: int,
                tokenResponse: TokenResponse, outcome: PatchOutcome)
      returns (reply: Reply, sent: Option<PatchRequest>)
      modifies this
      ensures ("profile" !in body || Falsy(body["profile"])) ==>
        reply == Reply(400, map["error" := JStr("Profile data is required")]) && sent.None?
        && managementToken == old(managementToken) && tokenExpiresAt == old(tokenExpiresAt)
      ensures "profile" in body && !Falsy(body["profile"]) ==>
        (sent.Some? <==> Fresh(old(managementToken), old(tokenExpiresAt), now) || tokenResponse.TokenReceived?)
      ensures "profile" in body && !Falsy(body["profile"]) && Fresh(old(managementToken), old(tokenExpiresAt), now) ==>
        managementToken == old(managementToken) && tokenExpiresAt == old(tokenExpiresAt)
      ensures "profile" in body && !Falsy(body["profile"]) && !Fresh(old(managementToken), old(tokenExpiresAt), now) ==>
        if tokenResponse.TokenReceived? then
          managementToken == tokenResponse.accessToken && tokenExpiresAt == ExpiryFrom(now, tokenResponse.expiresIn)
        else
          managementToken == old(managementToken) && tokenExpiresAt == old(tokenExpiresAt)
      ensures sent.Some? ==>
        "profile" in body && sent.value.userId == sub
        && sent.value.appMetadata == BuildMetadata(body["profile"], sub)
        && sent.value.bearer == if Fresh(old(managementToken), old(tokenExpiresAt), now) then old(managementToken)
                                else tokenResponse.accessToken
      ensures reply.status == 200 <==> sent.Some? && outcome == PatchOk
      ensures reply.status == 200 ==> reply.body == map["success" := JBool(true), "message" := JStr(SuccessMessage(endpoint))]
      ensures reply.status in {200, 400, 500}
      ensures "profile" in body && !Falsy(body["profile"]) && reply.status != 200 ==>
        reply.status == 500 && "error" in reply.body && reply.body["error"] == JStr(FailureMessage(endpoint))
    {
      if "profile" !in body || Falsy(body["profile"]) {
        return Reply(400, map["error" := JStr("Profile data is required")]), None;
      }
      var metadata := BuildMetadata(body["profile"], sub);
      var token := GetManagementToken(now, tokenResponse);
      if token.None? {
        return Reply(500, map["error" := JStr(FailureMessage(endpoint))]), None;
      }
      sent := Some(PatchRequest(sub, token.value, metadata));
      if outcome != PatchOk {
        return Reply(500, map["error" := JStr(FailureMessage(endpoint))]), sent;
      }
      reply := Reply(200, map["success" := JBool(true), "message" := JStr(SuccessMessage(endpoint))]);
    }
  }
}
