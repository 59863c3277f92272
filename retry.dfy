/** The bounded retry loop shared by `getToken` and `login`. A counter
    starts at 1. Each pass sends one request and then increments the counter;
    the loop repeats while the decoded reply has no `success` member and the
    counter has not passed `maxRetries`. Once it stops, the call throws when
    the counter has reached `maxRetries`, whatever the last reply said.

    `Run` follows the loop attempt by attempt over the replies the server will
    give; a request with no reply left is a transport error. The lemmas give
    the loop's outcome in closed form. */
module Retry {
  import opened Wire

  /** How the loop ends: after a reply, with the final `$tryCounter`, or with
      the transport raising on a request that got no reply. */
  datatype LoopEnd = Answered(tryCounter: int, reply: Reply) | NoReply

  /** The number of requests the loop may issue: the do-while runs once even
      when `maxRetries < 1`. */
  function Bound(maxRetries: int): nat {
    if maxRetries < 1 then 1 else maxRetries
  }

  /** The loop entered with `$tryCounter == tryCounter`, facing `replies`. */
  function Run(replies: seq<Reply>, tryCounter: int, maxRetries: int): LoopEnd
    decreases |replies|
  {
    if replies == [] then NoReply
    else if !Decodable(replies[0]) && tryCounter + 1 <= maxRetries then
      Run(replies[1..], tryCounter + 1, maxRetries)
    else Answered(tryCounter + 1, replies[0])
  }

  function RunLoop(replies: seq<Reply>, maxRetries: int): LoopEnd {
    Run(replies, 1, maxRetries)
  }

  /** The index of the first reply that ends the loop, `|replies|` if none does. */
  function FirstDecodable(replies: seq<Reply>): (f: nat)
    ensures f <= |replies|
    ensures f < |replies| ==> Decodable(replies[f])
    ensures forall i :: 0 <= i < f ==> !Decodable(replies[i])
    decreases |replies|
  {
    if replies == [] || Decodable(replies[0]) then 0
    else 1 + FirstDecodable(replies[1..])
  }

  /** Entered with counter `c`, the loop stops at the first reply that is
      decodable or that takes the counter past `maxRetries`. */
  lemma {:induction false} RunClosedForm(replies: seq<Reply>, c: int, maxRetries: int)
    ensures var f := FirstDecodable(replies);
            var m: nat := if maxRetries - c < 0 then 0 else maxRetries - c;
            var s := if f < m then f else m;
            Run(replies, c, maxRetries) ==
              if s < |replies| then Answered(c + s + 1, replies[s]) else NoReply
    decreases |replies|
  {
    if replies != [] && !Decodable(replies[0]) && c + 1 <= maxRetries {
      RunClosedForm(replies[1..], c + 1, maxRetries);
      assert FirstDecodable(replies) == 1 + FirstDecodable(replies[1..]);
    }
  }

  /** The loop in closed form. With `f` the index of the first decodable reply
      and `B` the attempt budget: it stops at attempt `f + 1` when that is
      within both the budget and the replies; otherwise after `B` attempts
      when the server answers all of them; otherwise the transport fails on
      the request after the last reply. */
  lemma LoopClosedForm(replies: seq<Reply>, maxRetries: int)
    ensures var f := FirstDecodable(replies);
            var b := Bound(maxRetries);
            RunLoop(replies, maxRetries) ==
              if f < b && f < |replies| then Answered(f + 2, replies[f])
              else if b <= |replies| then Answered(b + 1, replies[b - 1])
              else NoReply
  {
    RunClosedForm(replies, 1, maxRetries);
  }

  /** The number of requests the loop issues, the failed one included. */
  function Attempts(replies: seq<Reply>, maxRetries: int): (k: nat)
    ensures 1 <= k <= Bound(maxRetries)
    ensures k <= |replies| + 1
    ensures k <= |replies| ==> RunLoop(replies, maxRetries) == Answered(k + 1, replies[k - 1])
    ensures k == |replies| + 1 <==> RunLoop(replies, maxRetries) == NoReply
  {
    LoopClosedForm(replies, maxRetries);
    match RunLoop(replies, maxRetries)
    case Answered(tryCounter, _) => tryCounter - 1
    case NoReply => |replies| + 1
  }

  /** The attempt count read off the loop's end. */
  lemma AttemptsOfEnd(replies: seq<Reply>, maxRetries: int)
    ensures RunLoop(replies, maxRetries).NoReply? ==> Attempts(replies, maxRetries) == |replies| + 1
    ensures RunLoop(replies, maxRetries).Answered? ==>
              Attempts(replies, maxRetries) == RunLoop(replies, maxRetries).tryCounter - 1
  {
  }

  /** The loop followed by the check on the final counter. */
  function Conclude(replies: seq<Reply>, maxRetries: int, phase: Phase): (r: Result<Reply, Failure>)
    ensures r.Success? ==> Decodable(r.value)
  {
    LoopClosedForm(replies, maxRetries);
    match RunLoop(replies, maxRetries)
    case NoReply => Failure(TransportError)
    case Answered(tryCounter, reply) =>
      if tryCounter >= maxRetries then Failure(TriesExhausted(phase, maxRetries)) else Success(reply)
  }

  /** The check in closed form: the call succeeds exactly when the first
      decodable reply comes at attempt `f + 1 <= maxRetries - 2`; it throws
      "within N tries" when some reply is decodable or the server answers the
      whole budget; otherwise the transport error surfaces. */
  lemma ConcludeClosedForm(replies: seq<Reply>, maxRetries: int, phase: Phase)
    ensures var f := FirstDecodable(replies);
            Conclude(replies, maxRetries, phase) ==
              if f < |replies| && f + 2 < maxRetries then Success(replies[f])
              else if f < |replies| || Bound(maxRetries) <= |replies| then Failure(TriesExhausted(phase, maxRetries))
              else Failure(TransportError)
  {
    LoopClosedForm(replies, maxRetries);
  }

  /** The off-by-one: a decodable reply at attempt `maxRetries - 1` or
      `maxRetries` still ends in the exception. */
  lemma LateSuccessStillThrows(replies: seq<Reply>, maxRetries: int, phase: Phase)
    requires FirstDecodable(replies) < |replies|
    requires maxRetries - 1 <= FirstDecodable(replies) + 1 <= maxRetries
    ensures Conclude(replies, maxRetries, phase) == Failure(TriesExhausted(phase, maxRetries))
  {
    ConcludeClosedForm(replies, maxRetries, phase);
  }

  /** With `maxRetries <= 2` (in particular 1) no loop ever succeeds. */
  lemma SmallBudgetNeverSucceeds(replies: seq<Reply>, maxRetries: int, phase: Phase)
    requires maxRetries <= 2
    ensures Conclude(replies, maxRetries, phase).Failure?
  {
    ConcludeClosedForm(replies, maxRetries, phase);
  }

  /** A run of undecodable replies as long as the budget ends in the
      exception after exactly `maxRetries` requests. */
  lemma {:induction false} UndecodableRunExhausts(replies: seq<Reply>, maxRetries: int, phase: Phase)
    requires 1 <= maxRetries <= |replies|
    requires forall i :: 0 <= i < maxRetries ==> !Decodable(replies[i])
    ensures Attempts(replies, maxRetries) == maxRetries
    ensures Conclude(replies, maxRetries, phase) == Failure(TriesExhausted(phase, maxRetries))
  {
    LoopClosedForm(replies, maxRetries);
    ConcludeClosedForm(replies, maxRetries, phase);
  }
}
