/**
 * `tryEndpoints`: request each candidate endpoint in turn and return the
 * parsed body of the first one that answers 2xx with JSON.
 */
module Scanner {
  import opened Wrappers
  import opened Js
  import opened Exchange

  const MaxErrorText := 100

  /** A reply that ends the scan: 2xx and a body that parses as JSON. */
  predicate Accepted(r: Reply)
  {
    OkAnswer(r) && r.body.json.Ok?
  }

  /** A reply that records `lastError`: non-2xx and a body readable as text. */
  predicate Rejected(r: Reply)
  {
    ErrorAnswer(r) && r.body.text.Ok?
  }

  /** `s.substring(0, n)` for `n >= 0`. */
  function Prefix(s: string, n: nat): (p: string)
    ensures |p| == if |s| <= n then |s| else n
    ensures p == s[..|p|]
  {
    if |s| <= n then s else s[..n]
  }

  /** `[status] ` followed by at most the first 100 characters of the body. */
  function ErrorText(status: nat, text: string): (e: string)
    ensures |e| > 0 && e[0] == '['
  {
    "[" + NatToString(status) + "] " + Prefix(text, MaxErrorText)
  }

  function RejectionText(r: Reply): string
    requires Rejected(r)
  {
    ErrorText(r.status, r.body.text.value)
  }

  /** The text recorded for the LAST rejected reply, if any reply was rejected. */
  function LastError(replies: seq<Reply>): Option<string>
  {
    if replies == [] then None
    else
      var last := replies[|replies| - 1];
      if Rejected(last) then Some(RejectionText(last)) else LastError(replies[..|replies| - 1])
  }

  /** The message thrown once the list is exhausted: `lastError || 'Timeout/Unknown'`. */
  function ExhaustedMessage(lastError: Option<string>): string
  {
    "Semua endpoint gagal. Last error: " +
      match lastError
      case Some(e) => if e != "" then e else "Timeout/Unknown"
      case None => "Timeout/Unknown"
  }

  /** Index of the first accepted reply, or `|replies|` when none is accepted. */
  function FirstAccepted(replies: seq<Reply>): (k: nat)
    ensures k <= |replies|
    ensures k < |replies| ==> Accepted(replies[k])
    ensures forall j :: 0 <= j < k ==> !Accepted(replies[j])
  {
    if replies == [] then 0
    else if Accepted(replies[0]) then 0
    else
      var k := 1 + FirstAccepted(replies[1..]);
      assert forall j :: 1 <= j < |replies| ==> replies[j] == replies[1..][j - 1];
      k
  }

  /** What `tryEndpoints` resolves to (Ok) or throws (Err) for these replies. */
  function ScanOutcome(replies: seq<Reply>): (r: Result<Value, string>)
  {
    var k := FirstAccepted(replies);
    if k < |replies| then Ok(replies[k].body.json.value) else Err(ExhaustedMessage(LastError(replies)))
  }

  /** How many endpoints `tryEndpoints` requests before it returns or throws. */
  function ScanLength(replies: seq<Reply>): nat
  {
    var k := FirstAccepted(replies);
    if k < |replies| then k + 1 else |replies|
  }

  /**
   * The scan loop. `replies[i]` is what `endpoints[i]` answers if requested.
   * `calls` lists the requests actually made.
   */
  method TryEndpoints(endpoints: seq<string>, token: string, replies: seq<Reply>)
    returns (result: Result<Value, string>, calls: seq<Call>)
    requires |replies| == |endpoints|
    ensures |calls| <= |endpoints|
    ensures forall i :: 0 <= i < |calls| ==> calls[i] == Scan(endpoints[i], token)
    ensures result.Ok? ==>
      |calls| > 0 && Accepted(replies[|calls| - 1]) &&
      result.value == replies[|calls| - 1].body.json.value &&
      forall j :: 0 <= j < |calls| - 1 ==> !Accepted(replies[j])
    ensures result.Err? ==>
      |calls| == |endpoints| &&
      (forall j :: 0 <= j < |replies| ==> !Accepted(replies[j])) &&
      result.error == ExhaustedMessage(LastError(replies))
    ensures result == ScanOutcome(replies) && |calls| == ScanLength(replies)
  {
    var lastError: Option<string> := None;
    calls := [];
    for i := 0 to |endpoints|
      invariant |calls| == i
      invariant forall j :: 0 <= j < i ==> calls[j] == Scan(endpoints[j], token)
      invariant forall j :: 0 <= j < i ==> !Accepted(replies[j])
      invariant lastError == LastError(replies[..i])
    {
      calls := calls + [Scan(endpoints[i], token)];
      assert replies[..i + 1][..i] == replies[..i];
      match replies[i]
      case Threw(_) =>
      case Answer(status, body) =>
        if IsOk(status) {
          if body.json.Ok? {
            return Ok(body.json.value), calls;
          }
        } else if body.text.Ok? {
          lastError := Some(ErrorText(status, body.text.value));
        }
    }
    assert replies[..|endpoints|] == replies;
    result := Err(ExhaustedMessage(lastError));
  }

  /** The loop's contract pins down exactly the reference outcome and request count. */
  lemma ScanDeterminedByFirstAccepted(replies: seq<Reply>, result: Result<Value, string>, n: nat)
    requires n <= |replies|
    requires result.Ok? ==>
      n > 0 && Accepted(replies[n - 1]) && result.value == replies[n - 1].body.json.value &&
      forall j :: 0 <= j < n - 1 ==> !Accepted(replies[j])
    requires result.Err? ==>
      n == |replies| && (forall j :: 0 <= j < |replies| ==> !Accepted(replies[j])) &&
      result.error == ExhaustedMessage(LastError(replies))
    ensures result == ScanOutcome(replies)
    ensures n == ScanLength(replies)
  {
  }


  /**
   * `LastError` is the text of the latest rejected reply: it is None exactly
   * when no reply was rejected, and otherwise comes from a rejected reply
   * after which no reply is rejected.
   */
  lemma {:induction false} LastErrorIsLatestRejection(replies: seq<Reply>)
    ensures LastError(replies).None? <==> forall j :: 0 <= j < |replies| ==> !Rejected(replies[j])
    ensures LastError(replies).Some? ==>
      exists j :: 0 <= j < |replies| && Rejected(replies[j]) &&
        LastError(replies).value == RejectionText(replies[j]) &&
        forall k :: j < k < |replies| ==> !Rejected(replies[k])
  {
    if replies != [] {
      var init := replies[..|replies| - 1];
      LastErrorIsLatestRejection(init);
      assert forall j :: 0 <= j < |init| ==> init[j] == replies[j];
      if !Rejected(replies[|replies| - 1]) && LastError(init).Some? {
        var j :| 0 <= j < |init| && Rejected(init[j]) &&
          LastError(init).value == RejectionText(init[j]) &&
          forall k :: j < k < |init| ==> !Rejected(init[k]);
        assert Rejected(replies[j]) && forall k :: j < k < |replies| ==> !Rejected(replies[k]);
      }
    }
  }

  /**
   * The exhaustion message ends in the latest rejection text, or in
   * `Timeout/Unknown` when no reply was rejected (for instance when every
   * request threw, or the list is empty).
   */
  lemma ExhaustedMessageCases(replies: seq<Reply>)
    ensures LastError(replies).None? ==>
      ExhaustedMessage(LastError(replies)) == "Semua endpoint gagal. Last error: Timeout/Unknown"
    ensures LastError(replies).Some? ==>
      ExhaustedMessage(LastError(replies)) == "Semua endpoint gagal. Last error: " + LastError(replies).value
    ensures replies == [] ==> LastError(replies).None?
  {
  }


  /** A request that throws, or an unreadable error body, leaves `lastError` as it was. */
  lemma ExceptionKeepsLastError(replies: seq<Reply>, r: Reply)
    requires !Rejected(r)
    ensures LastError(replies + [r]) == LastError(replies)
  {
  }


  /** A rejection overrides every earlier one. */
  lemma RejectionSetsLastError(replies: seq<Reply>, r: Reply)
    requires Rejected(r)
    ensures LastError(replies + [r]) == Some("[" + NatToString(r.status) + "] " + Prefix(r.body.text.value, MaxErrorText))
  {
  }

  /** The recorded text is the bracketed status and at most 100 characters of the body. */
  lemma ErrorTextShape(status: nat, text: string)
    ensures var e := ErrorText(status, text);
      var tail := e[|NatToString(status)| + 3..];
      e[..|NatToString(status)| + 3] == "[" + NatToString(status) + "] " &&
      |tail| <= MaxErrorText && tail == text[..|tail|] &&
      (|text| <= MaxErrorText ==> tail == text)
  {
  }


  /** Endpoints after the first accepted one are never requested. */
  lemma LaterCandidatesUntouched(replies: seq<Reply>, i: nat)
    requires i < |replies| && Accepted(replies[i])
    ensures ScanLength(replies) <= i + 1
    ensures ScanOutcome(replies).Ok?
  {
  }


  /**
   * A 404 from the first endpoint followed by a 2xx JSON answer from the
   * second: the second body is returned after exactly two requests.
   */
  lemma SecondCandidateAfterNotFound(text: string, json: Result<Json, string>, v: Json, rest: seq<Reply>)
    ensures var replies := [Answer(404, Body(Ok(text), json)), Answer(200, Body(Ok("{}"), Ok(v)))] + rest;
      ScanOutcome(replies) == Ok(v) && ScanLength(replies) == 2
  {
    var replies := [Answer(404, Body(Ok(text), json)), Answer(200, Body(Ok("{}"), Ok(v)))] + rest;
    assert replies[1..][0] == replies[1];
  }
}
