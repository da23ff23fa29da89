/**
 The identity gate of the Slack client. A credential is checked with auth.test and the answer is cached for five
 minutes; a message is handed to the transport only for the credential whose identity was last found to be the
 configured one. Digests are modelled by the credential itself.
 */
module SlackIdentity {
  import opened Wrappers
  import opened ProviderHttp

  datatype Identity = Identity(team: string, user: string, bot: Option<string>)

  /** The trusted settings; a missing bot matches every bot. */
  datatype Expected = Expected(team: Option<string>, user: Option<string>, bot: Option<string>)

  datatype Cache = Cache(credential: string, expected: Expected, verifiedUntil: real)

  datatype TestAnswer =
    | Identified(identity: Identity)
    | TestRetryable(retryAfter: Option<real>)
    | TestPermanent
    | TestUncaught

  datatype VerifyReply = Checked(valid: bool) | NotChecked(answer: TestAnswer)

  datatype PostReply = NoCredential | VerificationRequired | Posted(outcome: PostOutcome)

  const CacheSeconds: real := 300.0

  predicate Matches(expected: Expected, identity: Identity) {
    && expected.team == Some(identity.team) && expected.user == Some(identity.user)
    && (expected.bot.None? || expected.bot == identity.bot)
  }

  function Text(fields: map<string, Json>, key: string): Option<string> {
    if key in fields && fields[key].JString? && 1 <= |fields[key].text| <= 255 then Some(fields[key].text) else None
  }

  function IdentityOf(fields: map<string, Json>): Option<Identity> {
    var team := Text(fields, "team_id");
    var user := Text(fields, "user_id");
    if team.None? || user.None? then None
    else if "bot_id" !in fields || fields["bot_id"].JNull? then Some(Identity(team.value, user.value, None))
    else if Text(fields, "bot_id").None? then None
    else Some(Identity(team.value, user.value, Text(fields, "bot_id")))
  }

  /** One auth.test exchange. */
  function TestIdentity(e: Exchange, maximumBytes: nat, maximumRetry: real): TestAnswer {
    match RequestOutcome(e, false, maximumBytes)
    case RetryableHttp => TestRetryable(None)
    case ContractError => TestPermanent
    case AmbiguousWrite => TestPermanent
    case Uncaught => TestUncaught
    case Response(status, retryAfter, payload) =>
      if status == 429 then
        TestRetryable(if retryAfter.Some? then Some(Clamp(retryAfter.value, maximumRetry)) else None)
      else if Unsettled(status) then TestRetryable(None)
      else if !Accepting(status) || !payload.JObject? then TestPermanent
      else if !("ok" in payload.fields && payload.fields["ok"] == JBool(true)) then
        (if "error" in payload.fields && payload.fields["error"] == JString("ratelimited") then TestRetryable(None)
         else TestPermanent)
      else
        match IdentityOf(payload.fields)
        case None => TestPermanent
        case Some(identity) => Identified(identity)
  }

  /** An answer names an identity only when Slack said ok in a complete, small enough 2xx answer. */
  lemma IdentifiedMeansOk(e: Exchange, maximumBytes: nat, maximumRetry: real)
    ensures
      TestIdentity(e, maximumBytes, maximumRetry).Identified? ==>
        && e.Answered? && Accepting(e.status) && !Oversize(e, maximumBytes)
        && e.body.Some? && e.body.value.JObject?
        && "ok" in e.body.value.fields && e.body.value.fields["ok"] == JBool(true)
  {
  }

  /** A text column of an answer: present, a string, and of 1 to 255 characters. */
  predicate HasColumn(fields: map<string, Json>, key: string, text: string) {
    key in fields && fields[key] == JString(text) && 1 <= |text| <= 255
  }

  /** The identity an answer names, by its columns; a missing or null bot is no bot, a bad one no identity. */
  lemma IdentifiedIff(e: Exchange, maximumBytes: nat, maximumRetry: real, identity: Identity)
    ensures
      TestIdentity(e, maximumBytes, maximumRetry) == Identified(identity)
      <==> && AnsweredObject(e, maximumBytes).Some?
           && var p := AnsweredObject(e, maximumBytes).value;
           && "ok" in p && p["ok"] == JBool(true)
           && HasColumn(p, "team_id", identity.team) && HasColumn(p, "user_id", identity.user)
           && (match identity.bot
               case None => "bot_id" !in p || p["bot_id"] == JNull
               case Some(bot) => HasColumn(p, "bot_id", bot))
  {
  }

  /** A test is retryable exactly for lost connections, rate limits and unsettled statuses; other failures are final. */
  lemma TestFailures(e: Exchange, maximumBytes: nat, maximumRetry: real)
    ensures
      var answer := TestIdentity(e, maximumBytes, maximumRetry);
      var small := e.Answered? && Total(e.chunks) <= maximumBytes;
      && (answer.TestRetryable? <==>
            || e.NeverConnected? || e.LostInTransit?
            || (small && e.status in {408, 429, 500, 502, 503, 504})
            || (AnsweredObject(e, maximumBytes).Some?
                && var p := AnsweredObject(e, maximumBytes).value;
                && ("ok" in p ==> p["ok"] != JBool(true)) && "error" in p && p["error"] == JString("ratelimited")))
      && (answer.TestUncaught? <==> e.OtherFailure?)
      && (small && e.status == 429 ==> answer.TestRetryable? && AdviceOf(e.retryAfter, maximumRetry, answer.retryAfter))
  {
  }

  /** An identity matches when team and user are the configured ones and the bot, if one is configured, too. */
  lemma MatchesIff(expected: Expected, identity: Identity)
    ensures Matches(expected, identity)
       <==> && expected.team.Some? && expected.team.value == identity.team
            && expected.user.Some? && expected.user.value == identity.user
            && (expected.bot.Some? ==> identity.bot.Some? && identity.bot.value == expected.bot.value)
  {
  }

  /** A completed identity test: the credential, what Slack answered, and the clock afterwards. */
  datatype Test = Test(credential: string, identity: Identity, at: real)

  class Client {
    const expected: Expected
    const maximumBytes: nat
    const maximumRetry: real
    var cache: Option<Cache>
    /** Every identity test that was answered, oldest first. */
    ghost var tests: seq<Test>

    /** The cache remembers the latest completed test, exactly when that test matched the settings. */
    ghost predicate Valid()
      reads this
    {
      cache == if tests == [] || !Matches(expected, tests[|tests| - 1].identity) then None
               else Some(Cache(tests[|tests| - 1].credential, expected, tests[|tests| - 1].at + CacheSeconds))
    }

    /** The latest completed test was of this credential, matched the settings, and is less than five minutes old. */
    ghost predicate Authorized(credential: string, now: real)
      reads this
    {
      && tests != []
      && var last := tests[|tests| - 1];
      && last.credential == credential && Matches(expected, last.identity) && now < last.at + 300.0
    }

    constructor (expected: Expected, maximumBytes: nat, maximumRetry: real)
      ensures Valid() && tests == [] && this.expected == expected
      ensures this.maximumBytes == maximumBytes && this.maximumRetry == maximumRetry
    {
      this.expected := expected;
      this.maximumBytes := maximumBytes;
      this.maximumRetry := maximumRetry;
      cache := None;
      tests := [];
    }

    method CacheAuthorizes(credential: string, now: real) returns (authorized: bool)
      requires Valid()
      ensures authorized <==> Authorized(credential, now)
    {
      authorized := cache.Some? && now < cache.value.verifiedUntil && cache.value.credential == credential
                    && cache.value.expected == expected;
    }

    /** A failed test leaves the cache alone; an answered one replaces or clears it. */
    method VerifyIdentity(credential: Option<string>, now: real, e: Exchange, later: real) returns (reply: VerifyReply)
      requires Valid()
      modifies this
      ensures Valid()
      ensures
        var skipped := credential.None? || credential.value == "" || old(Authorized(credential.value, now));
        var answer := TestIdentity(e, maximumBytes, maximumRetry);
        && tests == (if skipped || !answer.Identified? then old(tests)
                     else old(tests) + [Test(credential.value, answer.identity, later)])
        && reply == (if credential.None? || credential.value == "" then NotChecked(TestPermanent)
                     else if skipped then Checked(true)
                     else if answer.Identified? then Checked(Matches(expected, answer.identity))
                     else NotChecked(answer))
      ensures reply == Checked(true) ==>
                Authorized(credential.value, if old(Authorized(credential.value, now)) then now else later)
    {
      if credential.None? || credential.value == "" { return NotChecked(TestPermanent); }
      var known := CacheAuthorizes(credential.value, now);
      if known { return Checked(true); }
      var answer := TestIdentity(e, maximumBytes, maximumRetry);
      if !answer.Identified? { return NotChecked(answer); }
      var valid := Matches(expected, answer.identity);
      cache := if valid then Some(Cache(credential.value, expected, later + CacheSeconds)) else None;
      tests := tests + [Test(credential.value, answer.identity, later)];
      return Checked(valid);
    }

    /** The message reaches the transport exactly when the credential is authorized at that moment. */
    method PostNotification(credential: Option<string>, now: real, channel: string, goodTimestamp: string -> bool,
                            e: Exchange) returns (reply: PostReply)
      requires Valid()
      ensures reply.Posted? <==> credential.Some? && credential.value != "" && Authorized(credential.value, now)
      ensures reply.NoCredential? <==> credential.None? || credential.value == ""
      ensures reply.Posted? ==> reply.outcome == SlackPost(e, channel, goodTimestamp, maximumBytes, maximumRetry)
    {
      if credential.None? || credential.value == "" { return NoCredential; }
      var authorized := CacheAuthorizes(credential.value, now);
      if !authorized { return VerificationRequired; }
      return Posted(SlackPost(e, channel, goodTimestamp, maximumBytes, maximumRetry));
    }
  }
}
