/**
 * The reply branch of the chat bot's message handler: an answer longer than
 * one chat message is sent as consecutive slices of at most 4096 characters,
 * an empty answer is replaced by a fixed apology, and a failure produces one
 * error reply that quotes the exception text.
 */
module TelegramReply {
  import opened Wrappers
  import opened Text

  /** The longest text one chat message may carry. */
  const MaxMessageLength: nat := 4096

  const FallbackText: string := "I couldn't generate a response. Please try again."

  /** The reply sent when processing raised, quoting `str(e)`. */
  function ErrorText(e: string): (r: string)
    ensures Occurs(e, r)
  {
    OccursAt("\U{274C} Sorry, an error occurred: ", e, "\nPlease try again later.");
    "\U{274C} Sorry, an error occurred: " + e + "\nPlease try again later."
  }

  /** `s[i:i+4096]` for `i` in `range(0, len(s), 4096)`. */
  function Chunks(s: string): seq<string>
    decreases |s|
  {
    if s == "" then []
    else if |s| <= MaxMessageLength then [s]
    else [s[..MaxMessageLength]] + Chunks(s[MaxMessageLength..])
  }

  /** Put back together, the slices give the text. */
  lemma {:induction false} ChunksConcat(s: string)
    ensures Concat(Chunks(s)) == s
  {
    if |s| > MaxMessageLength {
      var head, tail := s[..MaxMessageLength], s[MaxMessageLength..];
      ChunksConcat(tail);
      ConcatSplit([head], Chunks(tail));
      assert Concat([head]) == Concat([]) + head;
      assert s == head + tail;
    } else if s != "" {
      assert Concat([s]) == Concat([]) + s;
    }
  }

  /** Every slice is non-empty and fits in one message; there are `ceil(|s| / 4096)` of them. */
  lemma {:induction false} ChunksSizes(s: string)
    ensures forall k :: 0 <= k < |Chunks(s)| ==> 0 < |Chunks(s)[k]| <= MaxMessageLength
    ensures |Chunks(s)| == (|s| + MaxMessageLength - 1) / MaxMessageLength
  {
    if |s| > MaxMessageLength {
      ChunksSizes(s[MaxMessageLength..]);
    }
  }

  /** Slice `k` is the text from `4096 * k` up to the next multiple or the end. */
  lemma {:induction false} ChunksAt(s: string, k: nat)
    requires MaxMessageLength * k < |s|
    ensures k < |Chunks(s)|
    ensures Chunks(s)[k] == s[MaxMessageLength * k..if MaxMessageLength * (k + 1) <= |s| then MaxMessageLength * (k + 1) else |s|]
  {
    if |s| > MaxMessageLength && k > 0 {
      var tail := s[MaxMessageLength..];
      ChunksAt(tail, k - 1);
      assert Chunks(s)[k] == Chunks(tail)[k - 1];
    }
  }

  /** A non-empty answer that fits in one message is sent unchanged, alone. */
  lemma ShortAnswerSentWhole(s: string)
    requires 0 < |s| <= MaxMessageLength
    ensures Chunks(s) == [s]
  {
  }

  /**
   * The messages sent for the outcome of `process_query`: its exception text,
   * or its answer (`None` and `""` both count as no answer).
   */
  method HandleMessage(outcome: Result<Option<string>, string>) returns (sent: seq<string>)
    ensures outcome.Failure? ==> sent == [ErrorText(outcome.error)]
    ensures outcome.Success? && (outcome.value == None || outcome.value == Some("")) ==>
              sent == [FallbackText]
    ensures outcome.Success? && outcome.value.Some? && outcome.value.value != "" ==>
              sent == Chunks(outcome.value.value)
  {
    match outcome
    case Failure(e) =>
      sent := [ErrorText(e)];
    case Success(answer) =>
      if answer.Some? && answer.value != "" {
        var response := answer.value;
        if |response| > MaxMessageLength {
          sent := [];
          var i := 0;
          while i < |response|
            invariant 0 <= i
            invariant sent + Chunks(if i < |response| then response[i..] else "") == Chunks(response)
            decreases |response| - i
          {
            var end := if i + MaxMessageLength <= |response| then i + MaxMessageLength else |response|;
            var rest := response[i..];
            if |rest| > MaxMessageLength {
              assert rest[..MaxMessageLength] == response[i..end];
              assert rest[MaxMessageLength..] == response[i + MaxMessageLength..];
              assert Chunks(rest) == [response[i..end]] + Chunks(response[i + MaxMessageLength..]);
            } else {
              assert rest == response[i..end];
              assert Chunks(rest) == [response[i..end]];
            }
            sent := sent + [response[i..end]];
            i := i + MaxMessageLength;
          }
        } else {
          sent := [response];
        }
      } else {
        sent := [FallbackText];
      }
  }
}
