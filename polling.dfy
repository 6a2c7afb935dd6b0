/**
 * The polling loop of homework.py's `main`: one iteration turns the result of
 * get_api_answer into a new cursor, at most one message for send_message, and a new
 * value of the deduplication cell `old_status`.
 */
module Polling {
  import opened Wrappers
  import opened PyJson
  import opened Exceptions
  import opened Homework

  const NoNewStatuses: string := "Нет новых статусов работы"
  const FailurePrefix: string := "Сбой в работе программы: "

  /** The loop's two local variables: the `from_date` cursor and the last message sent. */
  datatype State = State(timestamp: Json, oldStatus: Option<string>)

  /** The state `main` enters the loop with. */
  const Initial: State := State(Int(0), None)

  /** One iteration's effect: the next state and the message handed to send_message, if any. */
  datatype Iteration = Iteration(next: State, sent: Option<string>)

  /**
   * The two exception handlers: EmptyResponseError is only logged; any other exception
   * becomes the failure message, the prefix followed by `str(e)`.
   */
  function Caught(e: Error): (r: Option<string>)
    ensures r.None? <==> e.EmptyResponseError?
    ensures r.Some? ==> |FailurePrefix| <= |r.value| && r.value[..|FailurePrefix|] == FailurePrefix && r.value[|FailurePrefix|..] == ErrorText(e)
  {
    if e.EmptyResponseError? then None else Some(FailurePrefix + ErrorText(e))
  }

  /** What `.get` raises when the parsed answer is not a dict. */
  function NoGetText(v: Json): string
  {
    "'" + TypeName(v) + "' object has no attribute 'get'"
  }

  /** The `current_date` an API result carries, if it is a dict that has one. */
  function CursorIn(answer: Checked<Json>): Option<Json>
  {
    if answer.Success? && answer.value.Object? && CurrentDateKey in answer.value.fields
    then Some(answer.value.fields[CurrentDateKey]) else None
  }

  /**
   * The message the iteration's body arrives at before the deduplication check: from
   * the try block, or from one of its two exception handlers.
   */
  function Candidate(answer: Checked<Json>): (r: Option<string>)
    ensures r.None? <==> (answer.Failure? && answer.error.EmptyResponseError?)
                         || (answer.Success? && answer.value.Object? && HomeworksKey !in answer.value.fields)
  {
    match answer
    case Failure(e) => Caught(e)
    case Success(response) =>
      if !response.Object? then Caught(AttributeError(NoGetText(response)))
      else
        match CheckResponse(response)
        case Failure(e) => Caught(e)
        case Success(homeworks) =>
          if homeworks == [] then Some(NoNewStatuses)
          else
            match ParseStatus(homeworks[0])
            case Failure(e) => Caught(e)
            case Success(message) => Some(message)
  }

  /** What an iteration takes from an API result: the cursor it carries and the message it leads to. */
  datatype Observation = Observation(cursor: Option<Json>, candidate: Option<string>)

  function Observe(answer: Checked<Json>): Observation
  {
    Observation(CursorIn(answer), Candidate(answer))
  }

  /**
   * The cursor update of the `.get('current_date', timestamp)` assignment and the
   * deduplicated send against `old_status`.
   */
  function Advance(s: State, o: Observation): (r: Iteration)
    ensures r.next.timestamp == if o.cursor.Some? then o.cursor.value else s.timestamp
    ensures r.sent.Some? <==> o.candidate.Some? && o.candidate != s.oldStatus
    ensures r.sent.Some? ==> r.sent == o.candidate == r.next.oldStatus
    ensures r.sent.None? ==> r.next.oldStatus == s.oldStatus
  {
    var timestamp := match o.cursor case Some(c) => c case None => s.timestamp;
    if o.candidate.Some? && o.candidate != s.oldStatus
    then Iteration(State(timestamp, o.candidate), o.candidate)
    else Iteration(State(timestamp, s.oldStatus), None)
  }

  /** One iteration of `main`'s loop on the result of get_api_answer. */
  function StepOn(s: State, answer: Checked<Json>): (r: Iteration)
    ensures r.sent.Some? ==> r.sent == Candidate(answer) && r.sent != s.oldStatus && r.next.oldStatus == r.sent
    ensures r.sent.None? ==> r.next.oldStatus == s.oldStatus
  {
    Advance(s, Observe(answer))
  }

  /** The cursor becomes the answer's `current_date` when it has one, whether or not validation then fails. */
  lemma StepCursor(s: State, answer: Checked<Json>)
    ensures CursorIn(answer).Some? ==> StepOn(s, answer).next.timestamp == CursorIn(answer).value
    ensures CursorIn(answer).None? ==> StepOn(s, answer).next.timestamp == s.timestamp
    ensures answer.Success? && answer.value.Object? && CurrentDateKey in answer.value.fields ==>
              StepOn(s, answer).next.timestamp == answer.value.fields[CurrentDateKey]
  {
  }

  /**
   * The deduplication rule: a message is sent exactly when the iteration arrives at one
   * that differs from `old_status`, and `old_status` then holds the latest message arrived at.
   */
  lemma StepDedup(s: State, answer: Checked<Json>)
    ensures StepOn(s, answer).sent.Some? <==> Candidate(answer).Some? && Candidate(answer) != s.oldStatus
    ensures StepOn(s, answer).sent.Some? ==> StepOn(s, answer).sent == Candidate(answer)
    ensures StepOn(s, answer).next.oldStatus == if Candidate(answer).Some? then Candidate(answer) else s.oldStatus
    ensures StepOn(s, answer).sent.Some? ==> StepOn(s, answer).sent != s.oldStatus
  {
  }

  /** Repeating an iteration on the same answer changes nothing and sends nothing. */
  lemma StepIdempotent(s: State, answer: Checked<Json>)
    ensures StepOn(StepOn(s, answer).next, answer) == Iteration(StepOn(s, answer).next, None)
  {
  }

  /** Two successive iterations that arrive at the same message send it at most once. */
  lemma SameMessageSentOnce(s: State, first: Checked<Json>, second: Checked<Json>)
    requires Candidate(first) == Candidate(second)
    ensures StepOn(StepOn(s, first).next, second).sent == None
  {
  }

  /** A response without "homeworks" sends nothing and leaves `old_status` alone. */
  lemma EmptyResponseSilent(s: State, response: Json)
    requires response.Object? && HomeworksKey !in response.fields
    ensures StepOn(s, Success(response)).sent == None
    ensures StepOn(s, Success(response)).next.oldStatus == s.oldStatus
  {
  }

  /** Only the first homework of the list decides the message. */
  lemma OnlyFirstHomeworkMatters(fields: map<string, Json>, homeworks: seq<Json>, others: seq<Json>)
    requires ErrorKey !in fields && homeworks != [] && others != [] && homeworks[0] == others[0]
    ensures Candidate(Success(Object(fields[HomeworksKey := Array(homeworks)])))
         == Candidate(Success(Object(fields[HomeworksKey := Array(others)])))
    ensures Candidate(Success(Object(fields[HomeworksKey := Array(homeworks)])))
         == match ParseStatus(homeworks[0]) case Success(m) => Some(m) case Failure(e) => Caught(e)
  {
  }

  /** An empty work list gives the fixed "no new statuses" message. */
  lemma EmptyListMessage(fields: map<string, Json>)
    requires ErrorKey !in fields
    ensures Candidate(Success(Object(fields[HomeworksKey := Array([])]))) == Some(NoNewStatuses)
  {
  }

  /** Every exception other than EmptyResponseError is offered as a failure message with its text. */
  lemma FailureMessage(e: Error)
    requires !e.EmptyResponseError?
    ensures Candidate(Failure(e)) == Some(FailurePrefix + ErrorText(e))
  {
  }

  /** Status notifications, the "no new statuses" message and failure messages never coincide. */
  lemma MessageKindsDiffer(name: string, verdict: string, e: Error)
    ensures Notification(name, verdict) != NoNewStatuses
    ensures Notification(name, verdict) != FailurePrefix + ErrorText(e)
    ensures NoNewStatuses != FailurePrefix + ErrorText(e)
  {
    assert Notification(name, verdict)[0] == 'И';
    assert NoNewStatuses[0] == 'Н';
    assert (FailurePrefix + ErrorText(e))[0] == 'С';
  }

  /** A change of the first homework's name or status is always sent. */
  lemma StatusChangeSent(s: State, answer: Checked<Json>, before: Json, after: Json)
    requires ParseStatus(before).Success? && ParseStatus(after).Success?
    requires s.oldStatus == Some(ParseStatus(before).value)
    requires Candidate(answer) == Some(ParseStatus(after).value)
    requires after.fields[StatusKey] != before.fields[StatusKey]
             || PyStr(after.fields[NameKey]) != PyStr(before.fields[NameKey])
    ensures StepOn(s, answer).sent == Some(ParseStatus(after).value)
  {
    ParseStatusInjective(before, after);
  }

  // ---------------------------------------------------------------------------
  // A finite stretch of the endless loop

  /** The state after a run and the messages sent during it, in order. */
  datatype Trace = Trace(final: State, sent: seq<string>)

  /** The loop run on what its iterations observed, one after another. */
  function Replay(s: State, observed: seq<Observation>): (r: Trace)
    ensures |r.sent| <= |observed|
    decreases |observed|
  {
    if observed == [] then Trace(s, [])
    else
      var it := Advance(s, observed[0]);
      var rest := Replay(it.next, observed[1..]);
      Trace(rest.final, OptionToSeq(it.sent) + rest.sent)
  }

  /** What the iterations observe from a sequence of API results. */
  function Observations(answers: seq<Checked<Json>>): (r: seq<Observation>)
    ensures |r| == |answers|
    ensures forall i :: 0 <= i < |answers| ==> r[i] == Observe(answers[i])
  {
    if answers == [] then [] else [Observe(answers[0])] + Observations(answers[1..])
  }

  /** The loop run on a finite sequence of get_api_answer results. */
  function Run(s: State, answers: seq<Checked<Json>>): (r: Trace)
    ensures |r.sent| <= |answers|
  {
    Replay(s, Observations(answers))
  }

  /** No message is sent twice in a row. */
  ghost predicate NoConsecutiveRepeats(messages: seq<string>)
  {
    forall i :: 0 < i < |messages| ==> messages[i] != messages[i - 1]
  }

  /** The last element of `messages`, or `default` when there is none. */
  function LastOr(default: Option<string>, messages: seq<string>): Option<string>
  {
    if messages == [] then default else Some(messages[|messages| - 1])
  }

  lemma LastOrCons(default: Option<string>, m: string, rest: seq<string>)
    ensures LastOr(default, [m] + rest) == LastOr(Some(m), rest)
  {
    if rest != [] {
      assert ([m] + rest)[|rest|] == rest[|rest| - 1];
    }
  }

  /** Putting a message in front of a repeat-free sequence that does not start with it keeps it repeat-free. */
  lemma NoRepeatsCons(m: string, rest: seq<string>)
    requires NoConsecutiveRepeats(rest) && (rest != [] ==> rest[0] != m)
    ensures NoConsecutiveRepeats([m] + rest)
  {
    var all := [m] + rest;
    forall i | 0 < i < |all| ensures all[i] != all[i - 1] {
      if i > 1 {
        assert all[i] == rest[i - 1] && all[i - 1] == rest[i - 2];
      }
    }
  }

  lemma {:induction false} ReplayNoRepeats(s: State, observed: seq<Observation>)
    ensures NoConsecutiveRepeats(Replay(s, observed).sent)
    ensures Replay(s, observed).sent != [] ==> Some(Replay(s, observed).sent[0]) != s.oldStatus
    ensures Replay(s, observed).final.oldStatus == LastOr(s.oldStatus, Replay(s, observed).sent)
    decreases |observed|
  {
    if observed != [] {
      var it := Advance(s, observed[0]);
      var rest := Replay(it.next, observed[1..]);
      ReplayNoRepeats(it.next, observed[1..]);
      var all := OptionToSeq(it.sent) + rest.sent;
      assert Replay(s, observed) == Trace(rest.final, all);
      if it.sent.Some? {
        assert it.next.oldStatus == it.sent && all == [it.sent.value] + rest.sent;
        NoRepeatsCons(it.sent.value, rest.sent);
        LastOrCons(s.oldStatus, it.sent.value, rest.sent);
      } else {
        assert it.next.oldStatus == s.oldStatus && all == rest.sent;
      }
    }
  }

  /**
   * Over any run, consecutive sends differ, the first differs from the cell's initial
   * content, and the cell ends up holding the last message sent.
   */
  lemma RunNoRepeats(s: State, answers: seq<Checked<Json>>)
    ensures NoConsecutiveRepeats(Run(s, answers).sent)
    ensures Run(s, answers).sent != [] ==> Some(Run(s, answers).sent[0]) != s.oldStatus
    ensures Run(s, answers).final.oldStatus == LastOr(s.oldStatus, Run(s, answers).sent)
  {
    ReplayNoRepeats(s, Observations(answers));
  }

  /** Running two stretches one after the other is running their concatenation. */
  lemma {:induction false} ReplayAppend(s: State, xs: seq<Observation>, ys: seq<Observation>)
    ensures Replay(s, xs + ys)
         == Trace(Replay(Replay(s, xs).final, ys).final, Replay(s, xs).sent + Replay(Replay(s, xs).final, ys).sent)
    decreases |xs|
  {
    if xs == [] {
      assert xs + ys == ys;
    } else {
      var it := Advance(s, xs[0]);
      var front := Replay(it.next, xs[1..]);
      var back := Replay(front.final, ys);
      assert (xs + ys)[0] == xs[0];
      assert (xs + ys)[1..] == xs[1..] + ys;
      ReplayAppend(it.next, xs[1..], ys);
      assert OptionToSeq(it.sent) + (front.sent + back.sent) == (OptionToSeq(it.sent) + front.sent) + back.sent;
    }
  }

  /**
   * The cursor after a stretch: the latest cursor observed, or the starting one when
   * no iteration observed any.
   */
  function LatestCursor(timestamp: Json, observed: seq<Observation>): (c: Json)
    ensures c == timestamp || exists i :: 0 <= i < |observed| && observed[i].cursor == Some(c)
    decreases |observed|
  {
    if observed == [] then timestamp
    else
      match observed[|observed| - 1].cursor
      case Some(c) => c
      case None =>
        var earlier := observed[..|observed| - 1];
        var c := LatestCursor(timestamp, earlier);
        assert c != timestamp ==> exists i :: 0 <= i < |earlier| && earlier[i].cursor == Some(c);
        assert forall i :: 0 <= i < |earlier| ==> earlier[i] == observed[i];
        c
  }

  lemma {:induction false} ReplayCursor(s: State, observed: seq<Observation>)
    ensures Replay(s, observed).final.timestamp == LatestCursor(s.timestamp, observed)
    decreases |observed|
  {
    if observed != [] {
      var earlier := observed[..|observed| - 1];
      var last := observed[|observed| - 1];
      assert observed == earlier + [last];
      ReplayAppend(s, earlier, [last]);
      ReplayCursor(s, earlier);
    }
  }

  /**
   * The cursor advances only from `current_date`: a run ends on the latest one it saw,
   * and so on the starting cursor or on the `current_date` of one of its answers.
   */
  lemma RunCursor(s: State, answers: seq<Checked<Json>>)
    ensures Run(s, answers).final.timestamp == LatestCursor(s.timestamp, Observations(answers))
    ensures Run(s, answers).final.timestamp == s.timestamp
            || exists i :: 0 <= i < |answers| && CursorIn(answers[i]) == Some(Run(s, answers).final.timestamp)
  {
    ReplayCursor(s, Observations(answers));
  }

  /** `n` copies of `x`. */
  function Repeat<T>(x: T, n: nat): (r: seq<T>)
    ensures |r| == n
    ensures forall i :: 0 <= i < n ==> r[i] == x
  {
    if n == 0 then [] else [x] + Repeat(x, n - 1)
  }

  /** Once the cell holds what an observation leads to, repeating it sends nothing more. */
  lemma {:induction false} ReplayRepeatedQuiet(s: State, o: Observation, n: nat)
    requires o.candidate.None? || o.candidate == s.oldStatus
    ensures Replay(s, Repeat(o, n)).sent == []
    ensures Replay(s, Repeat(o, n)).final.oldStatus == s.oldStatus
    decreases n
  {
    if n > 0 {
      assert Repeat(o, n)[1..] == Repeat(o, n - 1);
      ReplayRepeatedQuiet(Advance(s, o).next, o, n - 1);
    }
  }

  /**
   * An observation that leads to a new message and carries no cursor, repeated: the
   * message is sent once, and the cursor stays where it was.
   */
  lemma ReplayRepeatedFresh(s: State, o: Observation, n: nat)
    requires n > 0 && o.cursor.None? && o.candidate.Some? && o.candidate != s.oldStatus
    ensures Replay(s, Repeat(o, n)).sent == [o.candidate.value]
    ensures Replay(s, Repeat(o, n)).final.timestamp == s.timestamp
  {
    assert Repeat(o, n)[1..] == Repeat(o, n - 1);
    ReplayRepeatedQuiet(Advance(s, o).next, o, n - 1);
    ReplayCursor(s, Repeat(o, n));
    LatestNone(s.timestamp, Repeat(o, n));
  }

  /** The same answer, however often it comes back, is sent at most once. */
  lemma RunRepeatedSentOnce(s: State, answer: Checked<Json>, n: nat)
    requires n > 0
    ensures Run(s, Repeat(answer, n)).sent == OptionToSeq(StepOn(s, answer).sent)
  {
    var o := Observe(answer);
    assert Observations(Repeat(answer, n)) == Repeat(o, n);
    assert Repeat(o, n)[1..] == Repeat(o, n - 1);
    ReplayRepeatedQuiet(Advance(s, o).next, o, n - 1);
  }

  /** Without any `current_date`, the cursor stays where it started. */
  lemma {:induction false} LatestNone(timestamp: Json, observed: seq<Observation>)
    requires forall i :: 0 <= i < |observed| ==> observed[i].cursor.None?
    ensures LatestCursor(timestamp, observed) == timestamp
    decreases |observed|
  {
    if observed != [] {
      LatestNone(timestamp, observed[..|observed| - 1]);
    }
  }

  // ---------------------------------------------------------------------------
  // The request as written

  /** The answers get_api_answer gives, as written, to a sequence of server replies. */
  function AnswersAsWritten(replies: seq<HttpReply>): (r: seq<Checked<Json>>)
    ensures |r| == |replies|
    ensures forall i :: 0 <= i < |r| ==> r[i] == GetApiAnswerAsWritten(replies[i])
  {
    if replies == [] then [] else [GetApiAnswerAsWritten(replies[0])] + AnswersAsWritten(replies[1..])
  }

  /** The one answer get_api_answer, as written, ever gives. */
  const MissingUrl: Checked<Json> := Failure(TypeError(MissingUrlText))

  /** The failure message the request as written leads to. */
  const MissingUrlObserved: Observation := Observation(None, Some(FailurePrefix + MissingUrlText))

  /** A failed request carries no cursor and leads to the failure message for its exception. */
  lemma ObserveFailedRequest(e: Error)
    requires !e.EmptyResponseError? && !e.KeyError?
    ensures Observe(Failure(e)) == Observation(None, Some(FailurePrefix + e.text))
  {
  }

  lemma AsWrittenObserved(replies: seq<HttpReply>)
    ensures Observations(AnswersAsWritten(replies)) == Repeat(MissingUrlObserved, |replies|)
  {
    ObserveFailedRequest(TypeError(MissingUrlText));
  }

  /**
   * With the request as written, the bot never sees a reply: whatever the server would
   * answer, the chat gets one failure message, and the cursor never moves.
   */
  lemma AsWrittenNotifiesOnce(replies: seq<HttpReply>)
    requires |replies| > 0
    ensures Run(Initial, AnswersAsWritten(replies)).sent == [FailurePrefix + MissingUrlText]
    ensures Run(Initial, AnswersAsWritten(replies)).final.timestamp == Int(0)
  {
    AsWrittenObserved(replies);
    ReplayRepeatedFresh(Initial, MissingUrlObserved, |replies|);
  }

  // ---------------------------------------------------------------------------
  // Worked scenarios

  const Hw1Approved: Json :=
    Object(map[
      HomeworksKey := Array([Object(map[NameKey := Str("hw1"), StatusKey := Str("approved")])]),
      CurrentDateKey := Int(100)])

  lemma Hw1Observed()
    ensures Observe(GetApiAnswer(Reply(HttpOk, Parsed(Hw1Approved))))
         == Observation(Some(Int(100)), Some(Notification("hw1", ApprovedVerdict)))
  {
    var homework := Object(map[NameKey := Str("hw1"), StatusKey := Str("approved")]);
    assert HomeworkVerdicts["approved"] == ApprovedVerdict;
    assert CheckResponse(Hw1Approved) == Success([homework]);
    assert ParseStatus(homework) == Success(Notification("hw1", ApprovedVerdict));
  }

  /** An approved "hw1" is announced once with the exact text, then suppressed; the cursor moves to 100. */
  lemma ApprovedScenario()
    ensures Run(Initial, Repeat(GetApiAnswer(Reply(HttpOk, Parsed(Hw1Approved))), 3))
         == Trace(State(Int(100), Some(Notification("hw1", ApprovedVerdict))), [Notification("hw1", ApprovedVerdict)])
  {
    var answer := GetApiAnswer(Reply(HttpOk, Parsed(Hw1Approved)));
    var o := Observation(Some(Int(100)), Some(Notification("hw1", ApprovedVerdict)));
    Hw1Observed();
    assert Observations(Repeat(answer, 3)) == Repeat(o, 3);
    assert Repeat(o, 3)[1..] == Repeat(o, 2);
    ReplayRepeatedQuiet(Advance(Initial, o).next, o, 2);
    ReplayCursor(Initial, Repeat(o, 3));
  }

  /** An API error report without a work list is logged only: nothing is sent and nothing moves. */
  lemma ErrorOnlyScenario(s: State)
    ensures StepOn(s, Success(Object(map[ErrorKey := Str("some error")])))
         == Iteration(s, None)
  {
  }

  /** A homework without a name, as the only entry of an otherwise valid response. */
  const NamelessResponse: Json :=
    Object(map[HomeworksKey := Array([Object(map[StatusKey := Str("approved")])])])

  lemma NamelessCandidate()
    ensures Candidate(Success(NamelessResponse)) == Caught(KeyError(NoNameText))
  {
    var homework := Object(map[StatusKey := Str("approved")]);
    assert CheckResponse(NamelessResponse) == Success([homework]);
    assert ParseStatus(homework) == Failure(KeyError(NoNameText));
  }

  /**
   * A missing name is reported with the text Python gives a KeyError: the `repr()` of its
   * argument; only when that very report was the last message is it held back.
   */
  lemma MissingNameScenario(s: State)
    ensures StepOn(s, Success(NamelessResponse)).sent
         == if s.oldStatus == Some(FailurePrefix + PyRepr(NoNameText)) then None
            else Some(FailurePrefix + PyRepr(NoNameText))
  {
    NamelessCandidate();
    StepDedup(s, Success(NamelessResponse));
  }

  /**
   * A KeyError's text without backslashes, line breaks, tabs or the quote `repr()` picks
   * reaches the chat verbatim, between two such quotes.
   */
  lemma KeyErrorQuotesText(text: string)
    requires forall k :: 0 <= k < |text| ==> Plain(text[k], ReprQuote(text))
    ensures Caught(KeyError(text)) == Some(FailurePrefix + [ReprQuote(text)] + text + [ReprQuote(text)])
  {
    var q := ReprQuote(text);
    EscapePlain(text, q);
    assert ErrorText(KeyError(text)) == PyRepr(text) == [q] + text + [q];
    assert FailurePrefix + ([q] + text + [q]) == FailurePrefix + [q] + text + [q];
  }

  // ---------------------------------------------------------------------------
  // The loop body as the program runs it, with the request corrected

  /**
   * The bot: the loop's state, with the history of what it handed to send_message.
   * Its request is `Homework.GetApiAnswer`, the call with the endpoint passed as the URL.
   */
  class Bot {
    var timestamp: Json
    var oldStatus: Option<string>
    /** Every message handed to send_message, in order. */
    ghost var sent: seq<string>
    /** For each of them, whether Telegram accepted it. */
    ghost var delivered: seq<bool>

    ghost predicate Valid()
      reads this
    {
      && |delivered| == |sent|
      && NoConsecutiveRepeats(sent)
      && oldStatus == LastOr(None, sent)
    }

    function Snapshot(): State
      reads this
    {
      State(timestamp, oldStatus)
    }

    /** The state `main` sets up before the loop. */
    constructor ()
      ensures Valid() && Snapshot() == Initial && sent == [] && delivered == []
    {
      timestamp := Int(0);
      oldStatus := None;
      sent := [];
      delivered := [];
    }

    /** send_message: a TelegramError is caught and logged, so a failed delivery changes nothing else. */
    method SendMessage(message: string, deliveryOk: bool)
      modifies this`sent, this`delivered
      ensures sent == old(sent) + [message]
      ensures delivered == old(delivered) + [deliveryOk]
    {
      sent := sent + [message];
      delivered := delivered + [deliveryOk];
    }

    /**
     * One pass of the loop body: the (corrected) request and its examination, the cursor
     * update, and the deduplicated send. `deliveryOk` says whether Telegram accepts the
     * message, if one is sent.
     */
    method Iterate(reply: HttpReply, deliveryOk: bool) returns (message: Option<string>)
      requires Valid()
      modifies this
      ensures Valid()
      ensures Iteration(Snapshot(), message) == StepOn(old(Snapshot()), GetApiAnswer(reply))
      ensures sent == old(sent) + OptionToSeq(message)
      ensures delivered == old(delivered) + (if message.Some? then [deliveryOk] else [])
    {
      var cursor, candidate := Examine(reply);
      if cursor.Some? {
        timestamp := cursor.value;
      }
      message := None;
      if candidate.Some? && candidate != oldStatus {
        SendMessage(candidate.value, deliveryOk);
        oldStatus := candidate;
        message := candidate;
      }
    }
  }

  /**
   * The try block of the loop body and its two handlers, up to the deduplication
   * check: the `current_date` the `.get('current_date', timestamp)` assignment stores, if
   * any, and the message arrived at. The request is the corrected call of
   * `Homework.GetApiAnswer`, with the endpoint passed as the URL; the call as written
   * never reaches the server (see `AsWrittenNotifiesOnce`).
   */
  method Examine(reply: HttpReply) returns (cursor: Option<Json>, candidate: Option<string>)
    ensures Observation(cursor, candidate) == Observe(GetApiAnswer(reply))
  {
    cursor := None;
    var answer := GetApiAnswer(reply);
    if answer.Failure? {
      candidate := Caught(answer.error);
      return;
    }
    var response := answer.value;
    if !response.Object? {
      candidate := Caught(AttributeError(NoGetText(response)));
      return;
    }
    if CurrentDateKey in response.fields {
      cursor := Some(response.fields[CurrentDateKey]);
    }
    var homeworks := CheckResponse(response);
    if homeworks.Failure? {
      candidate := Caught(homeworks.error);
    } else if homeworks.value != [] {
      var status := ParseStatus(homeworks.value[0]);
      candidate := if status.Failure? then Caught(status.error) else Some(status.value);
    } else {
      candidate := Some(NoNewStatuses);
    }
  }

  /** `main` up to the loop: the credentials are checked once, and a missing one stops the program. */
  method Launch(practicumToken: Option<string>, telegramChatId: Option<string>, telegramToken: Option<string>)
    returns (r: Result<Bot, Error>)
    ensures r.Failure? <==> CheckTokens(practicumToken, telegramChatId, telegramToken).Fail?
    ensures r.Failure? ==> r.error == TokenNotFound(MissingTokenText)
    ensures r.Success? ==> fresh(r.value) && r.value.Valid() && r.value.Snapshot() == Initial && r.value.sent == []
  {
    var guard := CheckTokens(practicumToken, telegramChatId, telegramToken);
    if guard.Fail? {
      return Failure(guard.error);
    }
    var bot := new Bot();
    return Success(bot);
  }
}
