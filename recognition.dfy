/**
 The speech recogniser's result handler: every callback carries the whole
 list of results so far, and the working transcript becomes the
 concatenation of each result's first (best) alternative.
 */
module Recognition {

  /** One recognition result: its alternatives, best first. The recogniser always supplies at least one. */
  datatype SpeechResult = SpeechResult(best: string, others: seq<string>)

  /** The first alternatives of `results`, in order, joined with no separator. */
  function JoinTranscript(results: seq<SpeechResult>): (t: string)
    ensures results == [] ==> t == ""
    ensures results != [] ==> results[0].best <= t
    ensures results != [] ==> |results[|results| - 1].best| <= |t|
    ensures results != [] ==> t[|t| - |results[|results| - 1].best|..] == results[|results| - 1].best
  {
    if results == [] then "" else
      var rest := JoinTranscript(results[1..]);
      var t := results[0].best + rest;
      var last := results[|results| - 1].best;
      assert |results| > 1 ==>
        results[1..][|results[1..]| - 1].best == last && t[|t| - |last|..] == rest[|rest| - |last|..];
      assert |results| == 1 ==> rest == "" && t == last;
      t
  }

  /** Joining distributes over concatenation of result lists. */
  lemma {:induction false} JoinAppend(a: seq<SpeechResult>, b: seq<SpeechResult>)
    ensures JoinTranscript(a + b) == JoinTranscript(a) + JoinTranscript(b)
  {
    if a == [] {
      assert a + b == b;
    } else {
      assert (a + b)[1..] == a[1..] + b;
      JoinAppend(a[1..], b);
    }
  }

  /** Each result's best alternative sits, verbatim, between the joins of the results before and after it. */
  lemma JoinAt(results: seq<SpeechResult>, i: nat)
    requires i < |results|
    ensures JoinTranscript(results)
         == JoinTranscript(results[..i]) + results[i].best + JoinTranscript(results[i + 1..])
  {
    var tail := results[i..];
    assert results == results[..i] + tail;
    JoinAppend(results[..i], tail);
    assert tail[1..] == results[i + 1..];
    assert JoinTranscript(tail) == results[i].best + JoinTranscript(results[i + 1..]);
  }

  /** Only the first alternative matters: the other alternatives never reach the transcript. */
  lemma {:induction false} JoinIgnoresOtherAlternatives(results: seq<SpeechResult>, others: seq<seq<string>>)
    requires |others| == |results|
    ensures JoinTranscript(seq(|results|, i requires 0 <= i < |results| => SpeechResult(results[i].best, others[i])))
         == JoinTranscript(results)
  {
    var alt := seq(|results|, i requires 0 <= i < |results| => SpeechResult(results[i].best, others[i]));
    if results != [] {
      JoinIgnoresOtherAlternatives(results[1..], others[1..]);
      assert alt[1..] == seq(|results[1..]|, i requires 0 <= i < |results[1..]| => SpeechResult(results[1..][i].best, others[1..][i]));
    }
  }
}
