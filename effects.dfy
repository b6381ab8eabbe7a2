/**
  The observable effects of the bot, in the order it performs them: messages
  sent through the chat transport, calls into the cloud API, and background
  tracker tasks handed to the dispatcher's worker pool.
 */
module Effects {
  import opened YcApi

  /** How the transport is asked to parse a message's text. */
  datatype ParseMode = Plain | MarkdownV2

  /** Which tracker a spawned background task runs. */
  datatype TrackerKind = StartTracker | StopTracker

  datatype Effect =
    | Send(cid: int, text: string, mode: ParseMode)
    | CallGet(instId: string)
    | CallStart(instId: string)
    | CallStop(instId: string)
    | Spawn(kind: TrackerKind, op: Operation, cid: int, instId: string)

  /** A plain-text message to a chat. */
  function Reply(cid: int, text: string): Effect
  {
    Send(cid, text, Plain)
  }

  predicate IsPlainReply(e: Effect)
  {
    e.Send? && e.mode == Plain
  }

  predicate IsRemoteCall(e: Effect)
  {
    e.CallGet? || e.CallStart? || e.CallStop?
  }

  predicate IsMutatingCall(e: Effect)
  {
    e.CallStart? || e.CallStop?
  }

  /** The number of effects in `s` that satisfy `p`. */
  function Count(s: seq<Effect>, p: Effect -> bool): (n: nat)
    ensures n <= |s|
    ensures n == 0 <==> forall i :: 0 <= i < |s| ==> !p(s[i])
  {
    if s == [] then 0
    else
      var rest := Count(s[1..], p);
      assert forall i :: 1 <= i < |s| ==> s[i] == s[1..][i - 1];
      (if p(s[0]) then 1 else 0) + rest
  }

  /** Counting distributes over concatenation of effect logs. */
  lemma {:induction false} CountAppend(a: seq<Effect>, b: seq<Effect>, p: Effect -> bool)
    ensures Count(a + b, p) == Count(a, p) + Count(b, p)
  {
    if a == [] {
      assert a + b == b;
    } else {
      assert (a + b)[0] == a[0];
      assert (a + b)[1..] == a[1..] + b;
      CountAppend(a[1..], b, p);
    }
  }
}
