/**
 The HTTP boundary and the two write classifiers. The transport is an event; the question is whether a write that
 the provider may have accepted can ever be reported as known unsent.
 */
module ProviderHttp {
  import opened Wrappers

  datatype Json =
    | JNull
    | JBool(truth: bool)
    | JInt(number: int)
    | JString(text: string)
    | JObject(fields: map<string, Json>)
    | JOther

  /** One HTTP exchange as the transport sees it; `body` is None when the bytes are not JSON. */
  datatype Exchange =
    | NeverConnected
    | LostInTransit
    | OtherFailure
    | Answered(status: int, retryAfter: Option<real>, jsonType: bool, chunks: seq<nat>, body: Option<Json>)

  datatype HttpOutcome =
    | Response(status: int, retryAfter: Option<real>, payload: Json)
    | AmbiguousWrite
    | ContractError
    | RetryableHttp
    | Uncaught

  function Total(chunks: seq<nat>): nat {
    if chunks == [] then 0 else Total(chunks[..|chunks| - 1]) + chunks[|chunks| - 1]
  }

  predicate Accepting(status: int) { 200 <= status < 300 }

  predicate Oversize(e: Exchange, maximumBytes: nat) { e.Answered? && Total(e.chunks) > maximumBytes }

  function RequestOutcome(e: Exchange, write: bool, maximumBytes: nat): HttpOutcome {
    match e
    case NeverConnected => RetryableHttp
    case LostInTransit => if write then AmbiguousWrite else RetryableHttp
    case OtherFailure => Uncaught
    case Answered(status, retryAfter, jsonType, chunks, body) =>
      var unreadable := if write then AmbiguousWrite else ContractError;
      if Total(chunks) > maximumBytes then unreadable
      else if !Accepting(status) || Total(chunks) == 0 then Response(status, retryAfter, JNull)
      else if !jsonType || body.None? then unreadable
      else Response(status, retryAfter, body.value)
  }

  lemma {:induction false} PrefixTotal(chunks: seq<nat>, i: nat)
    requires i <= |chunks|
    ensures Total(chunks[..i]) <= Total(chunks)
  {
    if i < |chunks| {
      PrefixTotal(chunks[..|chunks| - 1], i);
      assert chunks[..|chunks| - 1][..i] == chunks[..i];
    } else {
      assert chunks[..i] == chunks;
    }
  }

  /** request_json: the body is accumulated chunk by chunk and abandoned as soon as it is too large. */
  method RequestJson(e: Exchange, write: bool, maximumBytes: nat) returns (outcome: HttpOutcome)
    ensures outcome == RequestOutcome(e, write, maximumBytes)
  {
    if e.NeverConnected? { return RetryableHttp; }
    if e.LostInTransit? { return if write then AmbiguousWrite else RetryableHttp; }
    if e.OtherFailure? { return Uncaught; }
    var size: nat := 0;
    for i := 0 to |e.chunks|
      invariant size == Total(e.chunks[..i]) <= maximumBytes
    {
      size := size + e.chunks[i];
      assert e.chunks[..i + 1][..i] == e.chunks[..i];
      if size > maximumBytes {
        PrefixTotal(e.chunks, i + 1);
        return if write then AmbiguousWrite else ContractError;
      }
    }
    assert e.chunks[..|e.chunks|] == e.chunks;
    if !Accepting(e.status) || size == 0 {
      return Response(e.status, e.retryAfter, JNull);
    }
    if !e.jsonType || e.body.None? {
      return if write then AmbiguousWrite else ContractError;
    }
    return Response(e.status, e.retryAfter, e.body.value);
  }

  // ---------------------------------------------------------------- what may have been accepted

  predicate Unsettled(status: int) { status in {408, 500, 502, 503, 504} }

  /** Slack's explicit refusal inside a 2xx answer. */
  predicate SaysNotOk(e: Exchange) {
    && e.Answered? && Accepting(e.status) && e.jsonType && Total(e.chunks) > 0
    && e.body.Some? && e.body.value.JObject?
    && "ok" in e.body.value.fields && e.body.value.fields["ok"] == JBool(false)
  }

  /** Transmission began, and the answer, if any, is not a refusal. */
  predicate MayBeAccepted(e: Exchange) {
    match e
    case NeverConnected => false
    case LostInTransit => true
    case OtherFailure => true
    case Answered(status, _, _, _, _) => 200 <= status < 300 || status in {408, 500, 502, 503, 504}
  }

  predicate MayBePosted(e: Exchange) { MayBeAccepted(e) && !SaysNotOk(e) }

  // ---------------------------------------------------------------- Slack

  datatype PostOutcome =
    | Receipt(channel: string, timestamp: string)
    | PostRetryable(retryAfter: Option<real>)
    | PostPermanent
    | PostUnknown
    | PostUncaught

  function Clamp(value: real, maximum: real): real {
    var floor := if value < 0.0 then 0.0 else value;
    if floor < maximum then floor else maximum
  }

  function SlackPost(e: Exchange, channel: string, goodTimestamp: string -> bool, maximumBytes: nat, maximumRetry: real)
    : PostOutcome
  {
    match RequestOutcome(e, true, maximumBytes)
    case AmbiguousWrite => PostUnknown
    case ContractError => PostUnknown
    case RetryableHttp => PostRetryable(None)
    case Uncaught => PostUncaught
    case Response(status, retryAfter, payload) =>
      if status == 429 then
        PostRetryable(if retryAfter.Some? then Some(Clamp(retryAfter.value, maximumRetry)) else None)
      else if Unsettled(status) then PostUnknown
      else if !Accepting(status) then PostPermanent
      else if !payload.JObject? then PostUnknown
      else
        var p := payload.fields;
        if !("ok" in p && p["ok"].JBool?) then PostUnknown
        else if !p["ok"].truth then
          (if "error" in p && p["error"] == JString("ratelimited") then PostRetryable(None) else PostPermanent)
        else if !("channel" in p && p["channel"] == JString(channel)) then PostUnknown
        else if !("ts" in p && p["ts"].JString? && goodTimestamp(p["ts"].text)) then PostUnknown
        else Receipt(channel, p["ts"].text)
  }

  /** Slack: within the size bound a write is reported as known unsent exactly when it cannot have been accepted. */
  lemma SlackKnownUnsentIff(e: Exchange, channel: string, goodTimestamp: string -> bool, maximumBytes: nat,
                            maximumRetry: real)
    ensures
      var outcome := SlackPost(e, channel, goodTimestamp, maximumBytes, maximumRetry);
      && (outcome.PostRetryable? || outcome.PostPermanent? <==> !MayBePosted(e) && !Oversize(e, maximumBytes))
      && (outcome.Receipt? ==> MayBePosted(e) && e.Answered? && Accepting(e.status))
      && (outcome.PostUncaught? ==> MayBePosted(e))
  {
  }

  /** The JSON object of a complete 2xx answer. */
  function AnsweredObject(e: Exchange, maximumBytes: nat): Option<map<string, Json>> {
    match e
    case Answered(status, _, true, chunks, Some(JObject(fields))) =>
      if 200 <= status < 300 && 0 < Total(chunks) <= maximumBytes then Some(fields) else None
    case _ => None
  }

  /** The advice of a rate limit: the header's seconds, kept between zero and the configured maximum. */
  predicate AdviceOf(header: Option<real>, maximumRetry: real, advice: Option<real>) {
    if header.None? then advice.None?
    else
      && advice.Some?
      && advice.value == (if maximumRetry < header.value && maximumRetry >= 0.0 then maximumRetry
                          else if header.value < 0.0 && maximumRetry >= 0.0 then 0.0
                          else if maximumRetry < 0.0 then maximumRetry
                          else header.value)
  }

  /** A receipt is given exactly for a complete ok answer that names the channel asked for and a good timestamp. */
  lemma ReceiptIff(e: Exchange, channel: string, goodTimestamp: string -> bool, maximumBytes: nat, maximumRetry: real,
                   inChannel: string, timestamp: string)
    ensures
      SlackPost(e, channel, goodTimestamp, maximumBytes, maximumRetry) == Receipt(inChannel, timestamp)
      <==> && AnsweredObject(e, maximumBytes).Some?
           && var p := AnsweredObject(e, maximumBytes).value;
           && "ok" in p && p["ok"] == JBool(true)
           && "channel" in p && p["channel"] == JString(channel) && inChannel == channel
           && "ts" in p && p["ts"] == JString(timestamp) && goodTimestamp(timestamp)
  {
  }

  /** A post may be sent again exactly when it was never transmitted or refused for a rate limit. */
  lemma PostRetryableIff(e: Exchange, channel: string, goodTimestamp: string -> bool, maximumBytes: nat,
                         maximumRetry: real, advice: Option<real>)
    ensures
      SlackPost(e, channel, goodTimestamp, maximumBytes, maximumRetry) == PostRetryable(advice)
      <==> || (e.NeverConnected? && advice.None?)
           || (e.Answered? && e.status == 429 && Total(e.chunks) <= maximumBytes
               && AdviceOf(e.retryAfter, maximumRetry, advice))
           || (AnsweredObject(e, maximumBytes).Some? && advice.None?
               && var p := AnsweredObject(e, maximumBytes).value;
               && "ok" in p && p["ok"] == JBool(false) && "error" in p && p["error"] == JString("ratelimited"))
  {
  }

  /** What a read makes of an exchange. */
  lemma ReadOutcome(e: Exchange, maximumBytes: nat)
    ensures
      var outcome := RequestOutcome(e, false, maximumBytes);
      && (outcome.RetryableHttp? <==> e.NeverConnected? || e.LostInTransit?)
      && (outcome.Uncaught? <==> e.OtherFailure?)
      && !outcome.AmbiguousWrite?
      && (outcome.ContractError? <==>
            && e.Answered?
            && (|| Total(e.chunks) > maximumBytes
                || (200 <= e.status < 300 && Total(e.chunks) > 0 && (!e.jsonType || e.body.None?))))
      && (outcome.Response? ==>
            && e.Answered? && outcome.status == e.status && outcome.retryAfter == e.retryAfter
            && outcome.payload
               == (if 200 <= e.status < 300 && Total(e.chunks) > 0 then e.body.value else JNull))
  {
  }

  /** The delay before a known-unsent post may be sent again, in seconds. */
  function KnownUnsentDelay(retryAfter: Option<real>): real {
    match retryAfter
    case None => 5.0
    case Some(seconds) => if seconds < 1.0 then 1.0 else seconds
  }

  /** Five seconds without advice; with it at least one second, and never more than the advice beyond that. */
  lemma KnownUnsentDelayMeans(retryAfter: Option<real>)
    ensures retryAfter.None? ==> KnownUnsentDelay(retryAfter) == 5.0
    ensures retryAfter.Some? && retryAfter.value >= 1.0 ==> KnownUnsentDelay(retryAfter) == retryAfter.value
    ensures retryAfter.Some? && retryAfter.value < 1.0 ==> KnownUnsentDelay(retryAfter) == 1.0
  {
  }

  lemma KnownUnsentDelayIsBounded(e: Exchange, channel: string, goodTimestamp: string -> bool, maximumBytes: nat,
                                  maximumRetry: real)
    requires maximumRetry >= 0.0
    requires SlackPost(e, channel, goodTimestamp, maximumBytes, maximumRetry).PostRetryable?
    ensures
      var delay := KnownUnsentDelay(SlackPost(e, channel, goodTimestamp, maximumBytes, maximumRetry).retryAfter);
      1.0 <= delay <= (if maximumRetry < 5.0 then 5.0 else maximumRetry)
  {
  }

  // ---------------------------------------------------------------- GitHub

  datatype WriteOutcome =
    | Written(comment: int)
    | WriteRetryable(retryAfter: Option<real>)
    | WritePermanent
    | WriteUnknown
    | WriteUncaught

  predicate HasText(fields: map<string, Json>, name: string) {
    name in fields && fields[name].JString? && fields[name].text != ""
  }

  /** The comment a payload describes, if it is complete; URL and date syntax are parameters. */
  function CommentOf(payload: Json, goodUrl: string -> bool, goodTime: string -> bool): Option<int> {
    if !payload.JObject? then None
    else
      var p := payload.fields;
      if !("id" in p && p["id"].JInt?) || !HasText(p, "body") then None
      else if !HasText(p, "html_url") || !goodUrl(p["html_url"].text) then None
      else if !HasText(p, "updated_at") || !goodTime(p["updated_at"].text) then None
      else Some(p["id"].number)
  }

  function GitHubWrite(e: Exchange, goodUrl: string -> bool, goodTime: string -> bool, maximumBytes: nat,
                       maximumRetry: real)
    : WriteOutcome
  {
    match RequestOutcome(e, true, maximumBytes)
    case AmbiguousWrite => WriteUnknown
    case ContractError => WriteUnknown
    case RetryableHttp => WriteRetryable(None)
    case Uncaught => WriteUncaught
    case Response(status, retryAfter, payload) =>
      if Accepting(status) then
        (match CommentOf(payload, goodUrl, goodTime)
         case None => WriteUnknown
         case Some(id) => Written(id))
      else if status == 429 then
        WriteRetryable(if retryAfter.Some? then Some(Clamp(retryAfter.value, maximumRetry)) else None)
      else if Unsettled(status) then WriteUnknown
      else WritePermanent
  }

  /** GitHub: the same equivalence; a comment is only ever reported from a complete 2xx answer. */
  lemma GitHubKnownUnsentIff(e: Exchange, goodUrl: string -> bool, goodTime: string -> bool, maximumBytes: nat,
                             maximumRetry: real)
    ensures
      var outcome := GitHubWrite(e, goodUrl, goodTime, maximumBytes, maximumRetry);
      && (outcome.WriteRetryable? || outcome.WritePermanent? <==> !MayBeAccepted(e) && !Oversize(e, maximumBytes))
      && (outcome.Written? ==> e.Answered? && Accepting(e.status) && e.body.Some?
                               && CommentOf(e.body.value, goodUrl, goodTime) == Some(outcome.comment))
      && (outcome.WriteUncaught? ==> MayBeAccepted(e))
  {
  }

  /** A comment is reported exactly from a complete 2xx answer with its id, body, address and date. */
  lemma WrittenIff(e: Exchange, goodUrl: string -> bool, goodTime: string -> bool, maximumBytes: nat,
                   maximumRetry: real, comment: int)
    ensures
      GitHubWrite(e, goodUrl, goodTime, maximumBytes, maximumRetry) == Written(comment)
      <==> && AnsweredObject(e, maximumBytes).Some?
           && var p := AnsweredObject(e, maximumBytes).value;
           && "id" in p && p["id"] == JInt(comment)
           && "body" in p && p["body"].JString? && p["body"].text != ""
           && "html_url" in p && p["html_url"].JString? && p["html_url"].text != "" && goodUrl(p["html_url"].text)
           && "updated_at" in p && p["updated_at"].JString? && p["updated_at"].text != ""
           && goodTime(p["updated_at"].text)
  {
  }

  /** A comment write may be tried again exactly when it was never transmitted or refused for a rate limit. */
  lemma WriteRetryableIff(e: Exchange, goodUrl: string -> bool, goodTime: string -> bool, maximumBytes: nat,
                          maximumRetry: real, advice: Option<real>)
    ensures
      GitHubWrite(e, goodUrl, goodTime, maximumBytes, maximumRetry) == WriteRetryable(advice)
      <==> || (e.NeverConnected? && advice.None?)
           || (e.Answered? && e.status == 429 && Total(e.chunks) <= maximumBytes
               && AdviceOf(e.retryAfter, maximumRetry, advice))
  {
  }
}
