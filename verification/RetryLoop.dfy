/** The retry loop of the airline client (muadi-client.service.ts): attempts with
    backoff, and one fresh start after the session's tokens were renewed. */
module RetryLoop {
  import opened Common

  /** What comes of one attempt; `NetworkError` is every failure without an HTTP reply.
      `salted`: the error carries code 120 and a salt, as booking protection answers. */
  datatype Reply =
    | Data(payload: nat, tokenProblem: bool)
    | HttpError(status: int, tokenProblem: bool, salted: bool)
    | NetworkError

  datatype Renewal = Renewed | NotRenewed | RenewalThrew

  datatype Failure = Http(status: int, salted: bool) | Other

  datatype Options = Options(hasSession: bool, retryOnHttpError: bool, nonIdempotentPath: bool)

  /** One request sent: before or after the renewal, which attempt, and what came back. */
  datatype Send = Send(retried: bool, attempt: nat, reply: Reply)

  /** What the network and the token endpoint will say. */
  datatype Script = Script(reply: (bool, nat) -> Reply, renewal: nat -> Renewal)

  datatype Next = Return(payload: nat) | Fail(failure: Failure) | Again | StartOver

  predicate WantsRenewal(reply: Reply) {
    match reply
    case Data(_, tokenProblem) => tokenProblem
    case HttpError(status, tokenProblem, _) => status == 401 || tokenProblem
    case NetworkError => false
  }

  predicate Retryable(failure: Failure, opts: Options) {
    match failure
    case Http(status, _) =>
      opts.retryOnHttpError && !opts.nonIdempotentPath && (status == 429 || status == 503 || 500 <= status)
    case Other => true
  }

  function AfterError(failure: Failure, opts: Options, maxAttempts: nat, attempt: nat): Next {
    if maxAttempts <= attempt || !Retryable(failure, opts) then Fail(failure) else Again
  }

  /** What follows a reply.  A renewal that throws on a good reply falls into the
      error handling; one that throws in the error handling leaves it. */
  function Decide(opts: Options, maxAttempts: nat, retried: bool, attempt: nat, reply: Reply, renewal: Renewal): Next {
    var renews := opts.hasSession && !retried && WantsRenewal(reply);
    if renews && renewal == Renewed then StartOver
    else
      match reply
      case Data(payload, _) =>
        if renews && renewal == RenewalThrew then AfterError(Other, opts, maxAttempts, attempt) else Return(payload)
      case HttpError(status, _, salted) =>
        if renews && renewal == RenewalThrew then Fail(Other) else AfterError(Http(status, salted), opts, maxAttempts, attempt)
      case NetworkError => AfterError(Other, opts, maxAttempts, attempt)
  }

  /** Everything sent from an attempt on, and how it ends. */
  function Trace(opts: Options, maxAttempts: nat, script: Script, retried: bool, attempt: nat)
    : (seq<Send>, Result<nat, Failure>)
    requires 1 <= attempt <= maxAttempts
    decreases if retried then 0 else 1, maxAttempts - attempt
  {
    var reply := script.reply(retried, attempt);
    var here := [Send(retried, attempt, reply)];
    match Decide(opts, maxAttempts, retried, attempt, reply, script.renewal(attempt))
    case Return(payload) => (here, Ok(payload))
    case Fail(failure) => (here, Err(failure))
    case Again =>
      var rest := Trace(opts, maxAttempts, script, retried, attempt + 1);
      (here + rest.0, rest.1)
    case StartOver =>
      var rest := Trace(opts, maxAttempts, script, true, 1);
      (here + rest.0, rest.1)
  }

  function After(before: seq<Send>, trace: (seq<Send>, Result<nat, Failure>)): (seq<Send>, Result<nat, Failure>) {
    (before + trace.0, trace.1)
  }

  lemma Unroll(opts: Options, maxAttempts: nat, script: Script, retried: bool, attempt: nat, before: seq<Send>)
    requires 1 <= attempt <= maxAttempts
    ensures var reply := script.reply(retried, attempt);
            var next := Decide(opts, maxAttempts, retried, attempt, reply, script.renewal(attempt));
            var sends := before + [Send(retried, attempt, reply)];
            After(before, Trace(opts, maxAttempts, script, retried, attempt)) ==
            if next.Return? then (sends, Ok(next.payload))
            else if next.Fail? then (sends, Err(next.failure))
            else if next.StartOver? then After(sends, Trace(opts, maxAttempts, script, true, 1))
            else After(sends, Trace(opts, maxAttempts, script, retried, attempt + 1))
  {
    var reply := script.reply(retried, attempt);
    var next := Decide(opts, maxAttempts, retried, attempt, reply, script.renewal(attempt));
    if next.StartOver? || next.Again? {
      var rest := if next.StartOver? then Trace(opts, maxAttempts, script, true, 1)
                  else Trace(opts, maxAttempts, script, retried, attempt + 1);
      assert before + ([Send(retried, attempt, reply)] + rest.0) == before + [Send(retried, attempt, reply)] + rest.0;
    }
  }

  method Request(opts: Options, maxAttempts: nat, script: Script, retried: bool)
    returns (sends: seq<Send>, result: Result<nat, Failure>)
    requires 1 <= maxAttempts
    ensures (sends, result) == Trace(opts, maxAttempts, script, retried, 1)
    decreases if retried then 0 else 1
  {
    sends := [];
    var attempt := 0;
    ghost var all := Trace(opts, maxAttempts, script, retried, 1);
    assert [] + all.0 == all.0;
    while true
      invariant 0 <= attempt < maxAttempts
      invariant After(sends, Trace(opts, maxAttempts, script, retried, attempt + 1)) == all
      decreases maxAttempts - attempt
    {
      attempt := attempt + 1;
      Unroll(opts, maxAttempts, script, retried, attempt, sends);
      var reply := script.reply(retried, attempt);
      sends := sends + [Send(retried, attempt, reply)];
      var next := Decide(opts, maxAttempts, retried, attempt, reply, script.renewal(attempt));
      if next.Return? {
        return sends, Ok(next.payload);
      }
      if next.Fail? {
        return sends, Err(next.failure);
      }
      if next.StartOver? {
        var more, end := Request(opts, maxAttempts, script, true);
        return sends + more, end;
      }
    }
  }

  /** At most maxAttempts sends, twice that when the tokens were renewed on the way. */
  lemma {:induction false} SendsAreBounded(opts: Options, maxAttempts: nat, script: Script, retried: bool, attempt: nat)
    requires 1 <= attempt <= maxAttempts
    ensures var sends := Trace(opts, maxAttempts, script, retried, attempt).0;
            && 1 <= |sends| <= (if retried || !opts.hasSession then 1 else 2) * maxAttempts - attempt + 1
            && sends[0] == Send(retried, attempt, script.reply(retried, attempt))
    decreases if retried then 0 else 1, maxAttempts - attempt
  {
    var next := Decide(opts, maxAttempts, retried, attempt, script.reply(retried, attempt), script.renewal(attempt));
    if next.Again? {
      SendsAreBounded(opts, maxAttempts, script, retried, attempt + 1);
    } else if next.StartOver? {
      SendsAreBounded(opts, maxAttempts, script, true, 1);
    }
  }

  /** A script that makes a retryable request use every attempt twice. */
  function Worst(maxAttempts: nat): Script {
    Script((retried, attempt) => if !retried && attempt == maxAttempts then HttpError(401, true, false) else NetworkError,
           attempt => Renewed)
  }

  lemma {:induction false} WorstIsReached(opts: Options, maxAttempts: nat, retried: bool, attempt: nat)
    requires opts.hasSession && 1 <= attempt <= maxAttempts
    ensures |Trace(opts, maxAttempts, Worst(maxAttempts), retried, attempt).0| ==
            (if retried then 1 else 2) * maxAttempts - attempt + 1
    decreases if retried then 0 else 1, maxAttempts - attempt
  {
    if attempt < maxAttempts {
      WorstIsReached(opts, maxAttempts, retried, attempt + 1);
    } else if !retried {
      WorstIsReached(opts, maxAttempts, true, 1);
    }
  }

  /** Whether something is sent after a reply. */
  predicate Resends(opts: Options, maxAttempts: nat, send: Send, renewal: Renewal) {
    var next := Decide(opts, maxAttempts, send.retried, send.attempt, send.reply, renewal);
    next.Again? || next.StartOver?
  }

  /** Every send but the last was followed by another for its own reply, and the
      result is what the last one came to. */
  lemma {:induction false} EachResendHasItsReason(opts: Options, maxAttempts: nat, script: Script, retried: bool, attempt: nat)
    requires 1 <= attempt <= maxAttempts
    ensures var (sends, result) := Trace(opts, maxAttempts, script, retried, attempt);
            && sends != []
            && (forall i :: 0 <= i < |sends| - 1 ==> Resends(opts, maxAttempts, sends[i], script.renewal(sends[i].attempt)))
            && var last := sends[|sends| - 1];
               var next := Decide(opts, maxAttempts, last.retried, last.attempt, last.reply, script.renewal(last.attempt));
               (next.Return? && result == Ok(next.payload)) || (next.Fail? && result == Err(next.failure))
    decreases if retried then 0 else 1, maxAttempts - attempt
  {
    var next := Decide(opts, maxAttempts, retried, attempt, script.reply(retried, attempt), script.renewal(attempt));
    if next.Again? {
      EachResendHasItsReason(opts, maxAttempts, script, retried, attempt + 1);
    } else if next.StartOver? {
      EachResendHasItsReason(opts, maxAttempts, script, true, 1);
    }
  }

  /** The session's tokens can be renewed on account of this reply. */
  predicate MayRenew(opts: Options, retried: bool, reply: Reply) {
    && opts.hasSession && !retried
    && match reply
       case Data(_, tokenProblem) => tokenProblem
       case HttpError(status, tokenProblem, _) => status == 401 || tokenProblem
       case NetworkError => false
  }

  /** Exactly when a request, of whatever kind, is sent again: its token was rejected and
      renewed; or another attempt is left and there was no reply at all, or renewing
      failed after a good reply, or, on a path that may be repeated, the status was 429
      or 500 and above.  Otherwise its one reply is the result. */
  lemma RequestIsResentIff(opts: Options, maxAttempts: nat, script: Script, retried: bool, attempt: nat)
    requires 1 <= attempt <= maxAttempts
    ensures var reply, renewal := script.reply(retried, attempt), script.renewal(attempt);
            var renewalFails := MayRenew(opts, retried, reply) && renewal == RenewalThrew;
            var (sends, result) := Trace(opts, maxAttempts, script, retried, attempt);
            && (2 <= |sends| <==>
                || (MayRenew(opts, retried, reply) && renewal == Renewed)
                || (attempt < maxAttempts
                    && match reply
                       case Data(_, _) => renewalFails
                       case HttpError(status, _, _) =>
                         && opts.retryOnHttpError && !opts.nonIdempotentPath
                         && (status == 429 || 500 <= status) && !renewalFails
                       case NetworkError => true))
            && (|sends| < 2 ==>
                  result == match reply
                            case Data(payload, _) => if renewalFails then Err(Other) else Ok(payload)
                            case HttpError(status, _, salted) => Err(if renewalFails then Other else Http(status, salted))
                            case NetworkError => Err(Other))
  {
    var next := Decide(opts, maxAttempts, retried, attempt, script.reply(retried, attempt), script.renewal(attempt));
    if next.Again? {
      SendsAreBounded(opts, maxAttempts, script, retried, attempt + 1);
    } else if next.StartOver? {
      SendsAreBounded(opts, maxAttempts, script, true, 1);
    }
  }

  /** Exactly when the client sends a booking more than once: when the first attempt
      got no reply at all and another one is left, or its token was rejected and could
      be renewed (or renewing it failed after a good reply); a plain HTTP error never
      makes it. */
  lemma BookingIsResentIff(opts: Options, maxAttempts: nat, script: Script, retried: bool, attempt: nat)
    requires opts.nonIdempotentPath && 1 <= attempt <= maxAttempts
    ensures var reply, renewal := script.reply(retried, attempt), script.renewal(attempt);
            2 <= |Trace(opts, maxAttempts, script, retried, attempt).0| <==>
            || (attempt < maxAttempts && reply.NetworkError?)
            || (opts.hasSession && !retried && WantsRenewal(reply) && renewal == Renewed)
            || (opts.hasSession && !retried && reply.Data? && reply.tokenProblem && renewal == RenewalThrew
                && attempt < maxAttempts)
  {
    var next := Decide(opts, maxAttempts, retried, attempt, script.reply(retried, attempt), script.renewal(attempt));
    if next.Again? {
      SendsAreBounded(opts, maxAttempts, script, retried, attempt + 1);
    } else if next.StartOver? {
      SendsAreBounded(opts, maxAttempts, script, true, 1);
    }
  }

  /** A booking that the airline made but whose answer got lost is sent once more. */
  lemma LostAnswerResendsBooking(opts: Options, maxAttempts: nat, script: Script)
    requires opts.nonIdempotentPath && opts.hasSession && 2 <= maxAttempts
    requires script.reply(false, 1) == NetworkError
    ensures 2 <= |Trace(opts, maxAttempts, script, false, 1).0|
    ensures Trace(opts, maxAttempts, script, false, 1).0[1].attempt == 2
  {
    SendsAreBounded(opts, maxAttempts, script, false, 2);
  }

  // ---- A booking behind the agent's protection ----

  predicate IsProtection(failure: Failure) {
    failure.Http? && failure.status == 403 && failure.salted
  }

  /** `createBooking`: nothing is sent when the session cannot be made valid first. */
  function Booking(opts: Options, maxAttempts: nat, script: Option<Script>): (seq<Send>, Result<nat, Failure>)
    requires 1 <= maxAttempts
  {
    if script.None? then ([], Err(Other)) else Trace(opts, maxAttempts, script.value, false, 1)
  }

  /** `createBookingWithProtection`: refused for want of a verification, the client
      verifies the agent and sends the booking again. */
  function ProtectedBooking(opts: Options, maxAttempts: nat, first: Option<Script>, verified: bool, second: Option<Script>)
    : (seq<Send>, Result<nat, Failure>)
    requires 1 <= maxAttempts
  {
    var one := Booking(opts, maxAttempts, first);
    if one.1.Ok? || !IsProtection(one.1.error) then one
    else if !verified then (one.0, Err(Other))
    else After(one.0, Booking(opts, maxAttempts, second))
  }

  method CreateBooking(opts: Options, maxAttempts: nat, script: Option<Script>)
    returns (sends: seq<Send>, result: Result<nat, Failure>)
    requires 1 <= maxAttempts
    ensures (sends, result) == Booking(opts, maxAttempts, script)
  {
    if script.None? {
      return [], Err(Other);
    }
    sends, result := Request(opts, maxAttempts, script.value, false);
  }

  method CreateBookingWithProtection(opts: Options, maxAttempts: nat,
                                     first: Option<Script>, verified: bool, second: Option<Script>)
    returns (sends: seq<Send>, result: Result<nat, Failure>)
    requires 1 <= maxAttempts
    ensures (sends, result) == ProtectedBooking(opts, maxAttempts, first, verified, second)
  {
    sends, result := CreateBooking(opts, maxAttempts, first);
    if result.Ok? || !IsProtection(result.error) {
      return;
    }
    if !verified {
      return sends, Err(Other);
    }
    var more, end := CreateBooking(opts, maxAttempts, second);
    sends, result := sends + more, end;
  }

  /** The reply after which the client verifies the agent, if it was the first. */
  predicate AsksForVerification(opts: Options, reply: Reply, renewal: Renewal) {
    && reply.HttpError? && reply.status == 403 && reply.salted
    && !(opts.hasSession && reply.tokenProblem && renewal != NotRenewed)
  }

  /** Exactly when a whole booking is sent more than once, in terms of the first reply:
      either a single call of the client resends it, or that reply asks for a
      verification, which succeeds, and the session is valid. */
  lemma ProtectedBookingIsResentIff(opts: Options, maxAttempts: nat, first: Option<Script>, verified: bool,
                                    second: Option<Script>)
    requires opts.nonIdempotentPath && 1 <= maxAttempts
    ensures 2 <= |ProtectedBooking(opts, maxAttempts, first, verified, second).0| <==>
            first.Some? &&
            (|| 2 <= |Trace(opts, maxAttempts, first.value, false, 1).0|
             || (AsksForVerification(opts, first.value.reply(false, 1), first.value.renewal(1)) && verified && second.Some?))
  {
    if first.Some? {
      var reply, renewal := first.value.reply(false, 1), first.value.renewal(1);
      SendsAreBounded(opts, maxAttempts, first.value, false, 1);
      BookingIsResentIff(opts, maxAttempts, first.value, false, 1);
      if second.Some? {
        SendsAreBounded(opts, maxAttempts, second.value, false, 1);
      }
    }
  }
}
