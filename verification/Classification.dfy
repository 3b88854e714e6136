/** What a rule looks at and what a rewritten event says, member by member as they are spelled. */
module Classification {
  import opened Wrappers
  import opened Bytes
  import opened Json
  import opened ErrorMapping
  import opened Framing
  import opened SseMapper
  import opened Streams
  import opened Pump

  lemma {:induction false} Spelling()
    ensures TYPE == Ascii("type") && RESPONSE == Ascii("response") && STATUS == Ascii("status") && ERROR == Ascii("error")
    ensures CODE == Ascii("code") && MESSAGE == Ascii("message") && RETRY_AFTER_MS == Ascii("retry_after_ms")
    ensures RESPONSE_FAILED == Ascii("response.failed") && FAILED == Ascii("failed") && SERVER_ERROR == Ascii("server_error")
    ensures RETRYABLE_CODE == Ascii("cpa_retryable")
  {
  }

  // ----- Matching -----

  /** The member is a string, one of those listed. */
  predicate IsOneOf(error: Json, member: Text, texts: seq<Text>) {
    exists i :: 0 <= i < |texts| && At(error, member) == String(texts[i])
  }

  lemma {:induction false} IsOneOfIff(error: Json, member: Text, texts: seq<Text>)
    ensures IsOneOf(error, member, texts) <==> At(error, member).String? && At(error, member).text in texts
  {
  }

  /** The member is a string with the needle somewhere inside. */
  ghost predicate Mentions(error: Json, member: Text, needle: Text) {
    exists before, behind :: At(error, member) == String(before + needle + behind)
  }

  lemma {:induction false} ContainsIff(text: Text, needle: Text)
    ensures Contains(text, needle) <==> exists before, behind :: text == before + needle + behind
  {
    if Contains(text, needle) {
      var i :| 0 <= i <= |text| && OccursAt(text, needle, i);
      assert text == text[..i] + needle + text[i + |needle|..];
    }
    if before, behind :| text == before + needle + behind {
      assert OccursAt(text, needle, |before|);
    }
  }

  lemma {:induction false} MentionsIff(error: Json, member: Text, needle: Text)
    ensures Mentions(error, member, needle) <==> At(error, member).String? && Contains(At(error, member).text, needle)
  {
    if At(error, member).String? {
      ContainsIff(At(error, member).text, needle);
      if Contains(At(error, member).text, needle) {
        var before, behind :| At(error, member).text == before + needle + behind;
        assert At(error, member) == String(before + needle + behind);
      }
    }
  }

  /** Each condition looks at its own member, and all that are given must hold. */
  lemma {:induction false} MatchesIff(m: Match, status: nat, error: Json)
    ensures Matches(m, status, error) <==>
              && (m.codes == [] || IsOneOf(error, Ascii("code"), m.codes))
              && (m.types == [] || IsOneOf(error, Ascii("type"), m.types))
              && (m.statuses == [] || exists i :: 0 <= i < |m.statuses| && m.statuses[i] == status)
              && (m.needle.None? || Mentions(error, Ascii("message"), m.needle.value))
  {
    Spelling();
    IsOneOfIff(error, Ascii("code"), m.codes);
    IsOneOfIff(error, Ascii("type"), m.types);
    if m.needle.Some? {
      MentionsIff(error, Ascii("message"), m.needle.value);
    }
  }

  /** Which failures are mapped at all: an enabled mapping, a failed response that carries an error
      object not yet marked, and a rule that matches the error. */
  lemma {:induction false} MappedIff(mapping: Mapping, status: nat, failure: Json)
    ensures var error := At(At(failure, Ascii("response")), Ascii("error"));
            MapFailure(mapping, status, failure).Some? <==>
              && mapping.enabled
              && At(failure, Ascii("type")) == String(Ascii("response.failed"))
              && error.Object?
              && At(error, Ascii("code")) != String(Ascii("cpa_retryable"))
              && exists i :: 0 <= i < |mapping.rules| && Matches(mapping.rules[i].matcher, status, error)
  {
    Spelling();
    FirstMatchIsFirst(mapping.rules, status, At(At(failure, RESPONSE), ERROR));
  }

  // ----- A disabled mapping -----

  lemma {:induction false} NothingRewritten(lib: Library, mapping: Mapping, frames: seq<Text>)
    requires !mapping.enabled
    ensures Rewritten(lib, mapping, frames) == Concat(frames)
  {
    if frames != [] {
      NothingRewritten(lib, mapping, frames[1..]);
    }
  }

  lemma {:induction false} PushedUnchanged(lib: Library, mapping: Mapping, s: State, bytes: Text)
    requires !mapping.enabled && (s.bypass ==> s.pending == [])
    ensures var (t, out) := Pushed(lib, mapping, s, bytes);
            out + t.pending == s.pending + bytes && (t.bypass ==> t.pending == [])
  {
    if !s.bypass {
      NothingRewritten(lib, mapping, Frames(s.pending + bytes));
      FramesAndTail(s.pending + bytes);
    }
  }

  lemma {:induction false} Carried(before: Text, chunk: Text, out: Text, pending: Text, rest: Text, more: Text, last: Text)
    requires out + pending == before + chunk && more + last == pending + rest
    ensures (out + more) + last == before + (chunk + rest)
  {
    Associative(out, more, last);
    Associative(out, pending, rest);
    Associative(before, chunk, rest);
  }

  lemma {:induction false} RunUnchanged(lib: Library, mapping: Mapping, s: State, chunks: seq<Text>)
    requires !mapping.enabled && (s.bypass ==> s.pending == [])
    ensures var (t, out) := RunChunks(lib, mapping, s, chunks); out + t.pending == s.pending + Concat(chunks)
    decreases |chunks|
  {
    if chunks == [] {
      assert [] + s.pending == s.pending + [];
    } else {
      PushedUnchanged(lib, mapping, s, chunks[0]);
      var (t, out) := Pushed(lib, mapping, s, chunks[0]);
      RunUnchanged(lib, mapping, t, chunks[1..]);
      var (u, more) := RunChunks(lib, mapping, t, chunks[1..]);
      Carried(s.pending, chunks[0], out, t.pending, Concat(chunks[1..]), more, u.pending);
    }
  }

  /** A disabled mapping changes no byte of any stream, however it is cut and whatever its rules. */
  lemma {:induction false} DisabledChangesNothing(lib: Library, mapping: Mapping, chunks: seq<Text>)
    requires !mapping.enabled
    ensures Emitted(lib, mapping, chunks) == Concat(chunks)
  {
    RunUnchanged(lib, mapping, EMPTY, chunks);
    assert [] + Concat(chunks) == Concat(chunks);
  }

  /** And a failure that ends the stream is passed on as it came. */
  lemma {:induction false} DisabledPassesTheFailureOn(lib: Library, mapping: Mapping, answers: seq<Read>)
    requires !mapping.enabled && EndsAt(answers) < |answers|
    requires var last := answers[EndsAt(answers)]; last.Chunk? && last.error != []
    ensures Delivered(lib, mapping, answers) ==
            (Concat(Heard(lib, answers[..EndsAt(answers) + 1])), Failed(answers[EndsAt(answers)].error))
  {
    var heard, message := Heard(lib, answers[..EndsAt(answers) + 1]), answers[EndsAt(answers)].error;
    DisabledChangesNothing(lib, mapping, heard);
    assert MappedTerminal(lib, mapping, message) == None;
    assert Concat(heard) + [] == Concat(heard);
  }

  /** What the mapper still holds after the pieces. */
  function HeldBack(lib: Library, mapping: Mapping, pieces: seq<Text>): Text {
    RunChunks(lib, mapping, EMPTY, pieces).0.pending
  }

  lemma {:induction false} DisabledHoldsTheRest(lib: Library, mapping: Mapping, pieces: seq<Text>)
    requires !mapping.enabled
    ensures Unflushed(lib, mapping, pieces) + HeldBack(lib, mapping, pieces) == Concat(pieces)
  {
    RunUnchanged(lib, mapping, EMPTY, pieces);
    assert [] + Concat(pieces) == Concat(pieces);
  }

  /** When the loop ends without a flush, because the flag is up, a read failed or a payload could
      not be decoded, what was delivered lacks just what the mapper holds back. */
  lemma {:induction false} UnflushedEndings(lib: Library, mapping: Mapping, answers: seq<Read>)
    requires !mapping.enabled
    requires var n := EndsAt(answers);
             n < |answers| ==> answers[n].Fault? || (answers[n].error == [] && answers[n].payload.Undecodable?)
    ensures Delivered(lib, mapping, answers).0 + HeldBack(lib, mapping, Received(lib, answers)) == Concat(Received(lib, answers))
    ensures Delivered(lib, mapping, answers).1 == if EndsAt(answers) == |answers| then Stopped
                                                  else if answers[EndsAt(answers)].Fault? then Failed(answers[EndsAt(answers)].message)
                                                  else Failed(BAD_ENCODING)
  {
    assert answers[..|answers|] == answers;
    DisabledHoldsTheRest(lib, mapping, Received(lib, answers));
  }

  // ----- The rewritten event -----

  /** The number that decimal digits denote. */
  function NumberOf(digits: Text): int {
    if digits == [] then 0 else 10 * NumberOf(digits[..|digits| - 1]) + digits[|digits| - 1] as int - 48
  }

  /** The delay is printed in decimal, without leading zeros. */
  lemma {:induction false} DigitsDenote(n: nat)
    ensures NumberOf(Digits(n)) == n
    ensures forall d :: d in Digits(n) ==> 48 <= d as int <= 57
    ensures Digits(n) != [] && (n > 0 ==> Digits(n)[0] != 48) && (n == 0 ==> Digits(n) == [48])
  {
    var front, last := if n < 10 then [] else Digits(n / 10), (48 + n % 10) as byte;
    assert Digits(n) == front + [last];
    assert Digits(n)[..|front|] == front;
    if n >= 10 {
      DigitsDenote(n / 10);
    }
  }

  /** The error that a rule puts in place of another: its class, the rule's message and, if it has
      one, its delay in milliseconds; nothing else. */
  ghost predicate Says(error: Json, r: Retryable) {
    && error.Object? && error.fields.Keys <= {TYPE, CODE, MESSAGE, RETRY_AFTER_MS}
    && At(error, TYPE) == String(SERVER_ERROR)
    && At(error, CODE) == String(RETRYABLE_CODE)
    && At(error, MESSAGE) == String(r.message)
    && (r.delayMs.None? ==> At(error, RETRY_AFTER_MS) == Null)
    && (r.delayMs.Some? ==> At(error, RETRY_AFTER_MS).Number? && NumberOf(At(error, RETRY_AFTER_MS).literal) == r.delayMs.value)
  }

  lemma {:induction false} MembersAreDistinct()
    ensures TYPE != MESSAGE && TYPE != RETRY_AFTER_MS && MESSAGE != RETRY_AFTER_MS
  {
    assert |TYPE| == 4 && |MESSAGE| == 7 && |RETRY_AFTER_MS| == 14;
  }

  lemma {:induction false} DetailSays(r: Retryable)
    ensures Says(Detail(r), r)
  {
    KeysAreDistinct();
    MembersAreDistinct();
    if r.delayMs.Some? {
      DigitsDenote(r.delayMs.value);
    }
  }

  /** The error of a rewritten event is complete: nothing of the old classification is left. */
  lemma {:induction false} RewrittenError(r: Retryable, failure: Json)
    requires Rewritable(failure)
    ensures Says(At(At(Rewrite(r, failure), RESPONSE), ERROR), r)
    ensures At(At(Rewrite(r, failure), RESPONSE), STATUS) == String(FAILED)
  {
    RewriteTouchesOnlyTheClassification(r, failure, TYPE);
    DetailSays(r);
  }

  // ----- Which events are rewritten -----

  /** A failed response with this error and nothing else. */
  ghost predicate Carries(failure: Json, error: Json) {
    && failure.Object? && failure.fields.Keys == {TYPE, RESPONSE} && At(failure, TYPE) == String(RESPONSE_FAILED)
    && var response := At(failure, RESPONSE);
       && response.Object? && response.fields.Keys == {STATUS, ERROR}
       && At(response, STATUS) == String(FAILED) && At(response, ERROR) == error
  }

  lemma {:induction false} TypesAreDistinct()
    ensures ERROR != RESPONSE_FAILED
  {
    assert |ERROR| == 5 && |RESPONSE_FAILED| == 15;
  }

  /** A failed response is taken as it is, an error event by its error object, and no other event
      is taken for a failure. */
  lemma {:induction false} FailureInIs(lib: Library, data: Text)
    ensures lib.parse(data).None? ==> FailureIn(lib, data) == None
    ensures lib.parse(data).Some? ==>
              var v := lib.parse(data).value;
              && (At(v, TYPE) == String(RESPONSE_FAILED) ==> FailureIn(lib, data) == Some(v))
              && (At(v, TYPE) == String(ERROR) && At(v, ERROR).Object? ==>
                    FailureIn(lib, data).Some? && Carries(FailureIn(lib, data).value, At(v, ERROR)))
              && (At(v, TYPE) != String(RESPONSE_FAILED) && !(At(v, TYPE) == String(ERROR) && At(v, ERROR).Object?) ==>
                    FailureIn(lib, data) == None)
  {
    KeysAreDistinct();
    TypesAreDistinct();
  }

  /** An error message stands for the failed response or the error object in it, and otherwise for
      an error with that message and no other member: no code, type or status is made up. */
  lemma {:induction false} FailureFromMessageIs(lib: Library, message: Text)
    ensures var v, failure := lib.parse(message), FailureFromMessage(lib, message);
            if v.Some? && At(v.value, TYPE) == String(RESPONSE_FAILED) && At(At(v.value, RESPONSE), ERROR).Object? then
              failure == v.value
            else if v.Some? && At(v.value, ERROR).Object? then
              Carries(failure, At(v.value, ERROR))
            else
              && Carries(failure, At(At(failure, RESPONSE), ERROR))
              && At(At(failure, RESPONSE), ERROR) == Object(map[MESSAGE := String(message)])
  {
    KeysAreDistinct();
  }

  lemma {:induction false} CarriesOneFailure(failure: Json, other: Json, error: Json)
    requires Carries(failure, error) && Carries(other, error)
    ensures failure == other && Rewritable(failure)
  {
    var a, b := failure.fields, other.fields;
    assert forall key :: key in At(failure, RESPONSE).fields ==> key == STATUS || key == ERROR;
    assert At(failure, RESPONSE).fields == At(other, RESPONSE).fields;
    assert forall key :: key in a ==> a[key] == At(failure, key) && b[key] == At(other, key);
    assert a == b;
  }

  /** An error event comes out as the rewrite of its error object, if that is mapped. */
  lemma {:induction false} ErrorEventIsRewritten(lib: Library, mapping: Mapping, frame: Text, v: Json, failure: Json)
    requires Utf8(frame) && lib.parse(DataOf(frame)) == Some(v)
    requires At(v, TYPE) == String(ERROR) && At(v, ERROR).Object? && Carries(failure, At(v, ERROR))
    ensures Rewritable(failure)
    ensures var mapped := MapFailure(mapping, 0, failure);
            RewriteFrame(lib, mapping, frame) ==
            if mapped.None? then frame
            else Ascii("event: response.failed\ndata: ") + lib.show(Rewrite(mapped.value, failure)) + [10, 10]
  {
    FailureInIs(lib, DataOf(frame));
    CarriesOneFailure(failure, FailureIn(lib, DataOf(frame)).value, At(v, ERROR));
    assert TERMINATOR == [10, 10];
  }

  /** An event that is not text, not JSON, or of another type passes through. */
  lemma {:induction false} OtherEventsPass(lib: Library, mapping: Mapping, frame: Text)
    requires Utf8(frame) && lib.parse(DataOf(frame)).Some? ==>
               var kind := At(lib.parse(DataOf(frame)).value, TYPE); kind != String(RESPONSE_FAILED) && kind != String(ERROR)
    ensures RewriteFrame(lib, mapping, frame) == frame
  {
    FailureInIs(lib, DataOf(frame));
  }
}
