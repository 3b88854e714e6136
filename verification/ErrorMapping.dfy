/** Which structured failures are mapped to a retryable error, and what they are rewritten to. */
module ErrorMapping {
  import opened Wrappers
  import opened Bytes
  import opened Json

  const TYPE: Text := Ascii("type")
  const RESPONSE: Text := Ascii("response")
  const STATUS: Text := Ascii("status")
  const ERROR: Text := Ascii("error")
  const CODE: Text := Ascii("code")
  const MESSAGE: Text := Ascii("message")
  const RETRY_AFTER_MS: Text := Ascii("retry_after_ms")
  const RESPONSE_FAILED: Text := Ascii("response.failed")
  const FAILED: Text := Ascii("failed")
  const SERVER_ERROR: Text := Ascii("server_error")
  const RETRYABLE_CODE: Text := Ascii("cpa_retryable")

  /** The client-side target: a message and an optional delay in whole milliseconds. */
  datatype Retryable = Retryable(message: Text, delayMs: Option<nat>)

  datatype Match = Match(codes: seq<Text>, types: seq<Text>, statuses: seq<nat>, needle: Option<Text>)

  datatype Rule = Rule(name: Text, matcher: Match, retryable: Retryable)

  datatype Mapping = Mapping(enabled: bool, rules: seq<Rule>)

  /** An empty list of alternatives puts no condition on the field. */
  predicate FieldMatches(alternatives: seq<Text>, error: Json, key: Text) {
    alternatives == [] || (At(error, key).String? && At(error, key).text in alternatives)
  }

  predicate Matches(m: Match, status: nat, error: Json) {
    && FieldMatches(m.codes, error, CODE)
    && FieldMatches(m.types, error, TYPE)
    && (m.statuses == [] || status in m.statuses)
    && (m.needle.None? || (At(error, MESSAGE).String? && Contains(At(error, MESSAGE).text, m.needle.value)))
  }

  /** The first rule, in order, whose conditions all hold. */
  function FirstMatch(rules: seq<Rule>, status: nat, error: Json): Option<Retryable> {
    if rules == [] then None
    else if Matches(rules[0].matcher, status, error) then Some(rules[0].retryable)
    else FirstMatch(rules[1..], status, error)
  }

  /** The code that marks what has been mapped already. */
  function CodeOf(failure: Json): Json {
    At(At(At(failure, RESPONSE), ERROR), CODE)
  }

  /** A failure event that carries a structured error not mapped before. */
  predicate Mappable(failure: Json) {
    && At(failure, TYPE) == String(RESPONSE_FAILED)
    && At(At(failure, RESPONSE), ERROR).Object?
    && CodeOf(failure) != String(RETRYABLE_CODE)
  }

  function MapFailure(mapping: Mapping, status: nat, failure: Json): Option<Retryable> {
    if !mapping.enabled || !Mappable(failure) then None
    else FirstMatch(mapping.rules, status, At(At(failure, RESPONSE), ERROR))
  }

  function Detail(r: Retryable): Json {
    var detail := map[TYPE := String(SERVER_ERROR), CODE := String(RETRYABLE_CODE), MESSAGE := String(r.message)];
    Object(if r.delayMs.Some? then detail[RETRY_AFTER_MS := Number(Digits(r.delayMs.value))] else detail)
  }

  predicate Rewritable(failure: Json) {
    && (failure.Null? || failure.Object?)
    && (At(failure, RESPONSE).Null? || At(failure, RESPONSE).Object?)
  }

  /** Replace the classification entirely: the error object and the status, nothing else. */
  function Rewrite(r: Retryable, failure: Json): Json
    requires Rewritable(failure)
  {
    var response := Put(Put(At(failure, RESPONSE), ERROR, Detail(r)), STATUS, String(FAILED));
    Put(failure, RESPONSE, response)
  }

  function Wrap(error: Json): Json {
    Object(map[TYPE := String(RESPONSE_FAILED),
               RESPONSE := Object(map[STATUS := String(FAILED), ERROR := error])])
  }

  /** Recover a failure event from an error message that may carry a JSON body. */
  function FailureFromMessage(lib: Library, message: Text): Json {
    var parsed := lib.parse(message);
    if parsed.Some? && At(parsed.value, TYPE) == String(RESPONSE_FAILED)
       && At(At(parsed.value, RESPONSE), ERROR).Object? then
      parsed.value
    else if parsed.Some? && At(parsed.value, ERROR).Object? then
      Wrap(At(parsed.value, ERROR))
    else
      Wrap(Object(map[MESSAGE := String(message)]))
  }

  // ----- What is asked of the JSON library -----

  /** The events that can be rewritten: what parsing returns, and what is made of a message. */
  ghost predicate Arises(lib: Library, failure: Json) {
    exists text :: lib.parse(text) == Some(failure) || FailureFromMessage(lib, text) == failure
  }

  /** `v` is printed on one line, and what is parsed back has its type and its code. */
  ghost predicate PrintsBack(lib: Library, v: Json) {
    && LF !in lib.show(v) && CR !in lib.show(v)
    && lib.parse(lib.show(v)).Some?
    && var w := lib.parse(lib.show(v)).value;
       At(w, TYPE) == At(v, TYPE) && CodeOf(w) == CodeOf(v)
  }

  /** That is all the rewriter relies on, and only for the events it prints. */
  ghost predicate Lawful(lib: Library) {
    forall r: Retryable, failure: Json ::
      Arises(lib, failure) && Rewritable(failure) && Utf8(r.message) ==> PrintsBack(lib, Rewrite(r, failure))
  }

  /** Configured messages are text. */
  predicate WellFormed(mapping: Mapping) {
    forall rule :: rule in mapping.rules ==> Utf8(rule.retryable.message)
  }

  lemma {:induction false} MappedMessageIsText(mapping: Mapping, status: nat, failure: Json)
    requires WellFormed(mapping) && MapFailure(mapping, status, failure).Some?
    ensures Utf8(MapFailure(mapping, status, failure).value.message)
  {
    FirstMatchIsFirst(mapping.rules, status, At(At(failure, RESPONSE), ERROR));
  }

  // ----- What mapping and rewriting mean -----

  /** The rule that applies is the first that matches, and none applies when none matches. */
  lemma {:induction false} FirstMatchIsFirst(rules: seq<Rule>, status: nat, error: Json)
    ensures FirstMatch(rules, status, error).None? <==> forall i :: 0 <= i < |rules| ==> !Matches(rules[i].matcher, status, error)
    ensures FirstMatch(rules, status, error).Some? ==>
              exists i :: 0 <= i < |rules| && Matches(rules[i].matcher, status, error)
                          && FirstMatch(rules, status, error).value == rules[i].retryable
                          && forall j :: 0 <= j < i ==> !Matches(rules[j].matcher, status, error)
  {
    if rules != [] && !Matches(rules[0].matcher, status, error) {
      var rest := rules[1..];
      FirstMatchIsFirst(rest, status, error);
      assert forall i :: 0 <= i < |rest| ==> rest[i] == rules[i + 1];
      if FirstMatch(rest, status, error).Some? {
        var i :| 0 <= i < |rest| && Matches(rest[i].matcher, status, error)
                 && FirstMatch(rest, status, error).value == rest[i].retryable
                 && forall j :: 0 <= j < i ==> !Matches(rest[j].matcher, status, error);
        assert forall j :: 0 < j < i + 1 ==> rules[j] == rest[j - 1];
        assert Matches(rules[i + 1].matcher, status, error);
      }
    }
  }

  lemma {:induction false} KeysAreDistinct()
    ensures ERROR != STATUS && TYPE != RESPONSE && CODE != TYPE && CODE != MESSAGE && CODE != RETRY_AFTER_MS
  {
    assert |ERROR| == 5 && |STATUS| == 6 && |TYPE| == 4 && |RESPONSE| == 8 && |CODE| == 4 && |MESSAGE| == 7 && |RETRY_AFTER_MS| == 14;
    assert CODE[0] == 'c' as int as byte && TYPE[0] == 't' as int as byte;
  }

  /** A rewritten event is never mapped again, by any rules and for any HTTP status. */
  lemma {:induction false} RewrittenIsNeverMapped(r: Retryable, failure: Json, mapping: Mapping, status: nat)
    requires Rewritable(failure)
    ensures MapFailure(mapping, status, Rewrite(r, failure)) == None
  {
    KeysAreDistinct();
    var error := At(At(Rewrite(r, failure), RESPONSE), ERROR);
    assert error == Detail(r);
  }

  /** Rewriting keeps every other member of the event and of its response. */
  lemma {:induction false} RewriteTouchesOnlyTheClassification(r: Retryable, failure: Json, key: Text)
    requires Rewritable(failure)
    ensures key != RESPONSE ==> At(Rewrite(r, failure), key) == At(failure, key)
    ensures key != ERROR && key != STATUS ==> At(At(Rewrite(r, failure), RESPONSE), key) == At(At(failure, RESPONSE), key)
    ensures At(At(Rewrite(r, failure), RESPONSE), ERROR) == Detail(r)
    ensures At(At(Rewrite(r, failure), RESPONSE), STATUS) == String(FAILED)
  {
    KeysAreDistinct();
  }

  /** Whatever the message, the result is a failure event with a structured error, so it can be
      matched and rewritten; an error object in the message is kept, never invented. */
  lemma {:induction false} FailureIsStructured(lib: Library, message: Text)
    ensures var failure := FailureFromMessage(lib, message);
            && At(failure, TYPE) == String(RESPONSE_FAILED)
            && At(At(failure, RESPONSE), ERROR).Object?
            && Rewritable(failure)
            && (lib.parse(message).Some? && At(lib.parse(message).value, ERROR).Object?
                && !At(At(lib.parse(message).value, RESPONSE), ERROR).Object? ==>
                  At(At(failure, RESPONSE), ERROR) == At(lib.parse(message).value, ERROR))
            && (lib.parse(message).None? ==>
                  At(At(failure, RESPONSE), ERROR) == Object(map[MESSAGE := String(message)]))
            && (lib.parse(message).Some? && At(lib.parse(message).value, TYPE) == String(RESPONSE_FAILED)
                && At(At(lib.parse(message).value, RESPONSE), ERROR).Object? ==>
                  failure == lib.parse(message).value)
  {
    KeysAreDistinct();
  }

  function Statusless(rules: seq<Rule>): seq<Rule> {
    if rules == [] then []
    else (if rules[0].matcher.statuses == [] then [rules[0]] else []) + Statusless(rules[1..])
  }

  /** A failure whose HTTP status is unknown, passed as 0, is never taken for one with a status: the
      rules that name a status, which are client or server errors, might as well not be there. */
  lemma {:induction false} StatusIsNeverGuessed(rules: seq<Rule>, error: Json)
    requires forall r :: r in rules ==> forall status :: status in r.matcher.statuses ==> 400 <= status <= 599
    ensures FirstMatch(rules, 0, error) == FirstMatch(Statusless(rules), 0, error)
  {
    if rules != [] {
      assert rules[0] in rules && forall r :: r in rules[1..] ==> r in rules;
      StatusIsNeverGuessed(rules[1..], error);
      var rest := Statusless(rules[1..]);
      if rules[0].matcher.statuses == [] {
        assert Statusless(rules) == [rules[0]] + rest;
      } else {
        assert Statusless(rules) == [] + rest == rest;
        assert 0 !in rules[0].matcher.statuses;
      }
    }
  }
}
