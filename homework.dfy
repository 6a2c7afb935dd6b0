/**
 * The pure functions of homework.py: the credential guard, the outcome of the HTTP
 * request, the response validator and the status translator with its verdict table.
 */
module Homework {
  import opened Wrappers
  import opened PyJson
  import opened Exceptions

  type Checked<T> = Result<T, Error>

  const Endpoint: string := "https://practicum.yandex.ru/api/user_api/homework_statuses/"

  /** Seconds slept after every iteration of the polling loop. */
  const RetryPeriod: nat := 600

  /** `HTTPStatus.OK`, the only status code get_api_answer accepts. */
  const HttpOk: int := 200

  const ApprovedVerdict: string := "Работа проверена: ревьюеру всё понравилось. Ура!"
  const ReviewingVerdict: string := "Работа взята на проверку ревьюером."
  const RejectedVerdict: string := "Работа проверена: у ревьюера есть замечания."

  /** The three documented review statuses and the text announced for each. */
  const HomeworkVerdicts: map<string, string> :=
    map["approved" := ApprovedVerdict, "reviewing" := ReviewingVerdict, "rejected" := RejectedVerdict]

  const HomeworksKey: string := "homeworks"
  const ErrorKey: string := "error"
  const CurrentDateKey: string := "current_date"
  const NameKey: string := "homework_name"
  const StatusKey: string := "status"

  const MissingTokenText: string := "Отсутствует токен."
  // The first letter of this message is a Latin 'C', as in homework.py.
  const BadStatusText: string := "Cтатус ответа от " + Endpoint + " отличен от 2хх"
  const NotDictText: string := "Ошибка типа данных, ожидался dict"
  const NoHomeworksText: string := "В ответе остутствует список с дом. заданиями: 'homeworks'"
  const NotListText: string := "Ошибка типа данных."
  const ApiErrorText: string := "Ошибка в ответе API"
  const NoNameText: string := "Отсутствует ключ 'homework_name' в ответе API."
  const NoStatusText: string := "Отсутствует ключ 'status' в ответе API."
  const NotificationPrefix: string := "Изменился статус проверки работы \""
  const NotificationSeparator: string := "\". "

  function RequestErrorText(reason: string): string
  {
    "Ошибка " + reason + " при запросе к " + Endpoint
  }

  function UnknownStatusText(status: Json): string
  {
    "Недокументированный статус работы: " + PyStr(status)
  }

  /** The message with which Python refuses `v['homework_name']` when `v` is not a dict. */
  function NotSubscriptableText(v: Json): string
  {
    match v
    case Array(_) => "list indices must be integers or slices, not str"
    case Str(_) => "string indices must be integers"
    case _ => "'" + TypeName(v) + "' object is not subscriptable"
  }

  /** The message with which Python refuses to look up an unhashable `v` in the verdict table. */
  function UnhashableText(v: Json): string
  {
    "unhashable type: '" + TypeName(v) + "'"
  }

  /** The notification announcing that homework `name` now has the verdict `verdict`. */
  function Notification(name: string, verdict: string): string
  {
    NotificationPrefix + name + NotificationSeparator + verdict
  }

  // ---------------------------------------------------------------------------
  // check_tokens

  /** Python's truth value of an environment variable: set and not empty. */
  predicate Truthy(token: Option<string>)
  {
    token.Some? && token.value != ""
  }

  /** Python's `all()` over a sequence of environment variables. */
  function All(tokens: seq<Option<string>>): bool
  {
    if tokens == [] then true else Truthy(tokens[0]) && All(tokens[1..])
  }

  lemma {:induction false} AllMeansEveryTruthy(tokens: seq<Option<string>>)
    ensures All(tokens) <==> forall k :: 0 <= k < |tokens| ==> Truthy(tokens[k])
  {
    if tokens != [] {
      AllMeansEveryTruthy(tokens[1..]);
      assert forall k :: 1 <= k < |tokens| ==> tokens[k] == tokens[1..][k - 1];
    }
  }

  /** check_tokens: the three credentials, each `None` when the variable is unset. */
  function CheckTokens(practicumToken: Option<string>, telegramChatId: Option<string>,
                       telegramToken: Option<string>): (r: Outcome<Error>)
    ensures r.Fail? <==> !Truthy(practicumToken) || !Truthy(telegramChatId) || !Truthy(telegramToken)
    ensures r.Fail? ==> r.error == TokenNotFound(MissingTokenText)
  {
    var tokens := [practicumToken, telegramChatId, telegramToken];
    AllMeansEveryTruthy(tokens);
    assert tokens[0] == practicumToken && tokens[1] == telegramChatId && tokens[2] == telegramToken;
    if !All(tokens) then Fail(TokenNotFound(MissingTokenText)) else Pass
  }

  // ---------------------------------------------------------------------------
  // get_api_answer

  /** What `response.json()` makes of the body: a JSON value, or the JSONDecodeError it raises. */
  datatype Body = Parsed(value: Json) | Malformed(reason: string)

  /** What `requests.get` does: answer with a status code and a body, or raise a RequestException. */
  datatype HttpReply = Reply(statusCode: int, body: Body) | RequestException(reason: string)

  /**
   * get_api_answer with the request it evidently means to make (the endpoint passed as
   * the URL). Only a reply with status exactly 200 and a parsable body yields a value.
   */
  function GetApiAnswer(reply: HttpReply): (r: Checked<Json>)
    ensures r.Success? <==> reply.Reply? && reply.statusCode == HttpOk && reply.body.Parsed?
    ensures r.Success? ==> r.value == reply.body.value
    ensures reply.RequestException? ==> r == Failure(UnexpectedStatusCodeError(RequestErrorText(reply.reason)))
    ensures reply.Reply? && reply.statusCode != HttpOk ==> r == Failure(UnexpectedStatusCodeError(BadStatusText))
    ensures reply.Reply? && reply.statusCode == HttpOk && reply.body.Malformed? ==>
              r == Failure(JsonDecodeError(reply.body.reason))
  {
    match reply
    case RequestException(reason) => Failure(UnexpectedStatusCodeError(RequestErrorText(reason)))
    case Reply(code, body) =>
      if code != HttpOk then Failure(UnexpectedStatusCodeError(BadStatusText))
      else match body
        case Malformed(reason) => Failure(JsonDecodeError(reason))
        case Parsed(v) => Success(v)
  }

  /** Why `requests.get` refuses keyword arguments that do not include `url`. */
  const MissingUrlText: string := "get() missing 1 required positional argument: 'url'"

  /**
   * get_api_answer as written: `requests.get(**request_info)` passes the URL under the
   * keyword `endpoint`, so the call fails before any request whatever the server would
   * answer, with a TypeError that the `except requests.RequestException` clause does not catch.
   */
  function GetApiAnswerAsWritten(reply: HttpReply): (r: Checked<Json>)
    ensures r.Failure? && r.error.TypeError?
  {
    Failure(TypeError(MissingUrlText))
  }

  // ---------------------------------------------------------------------------
  // check_response

  /**
   * check_response: four checks in a fixed order; the first that fails decides the
   * exception, and on success the list under "homeworks" is returned unchanged.
   */
  function CheckResponse(response: Json): (r: Checked<seq<Json>>)
    ensures !response.Object? ==> r == Failure(TypeError(NotDictText))
    ensures response.Object? && HomeworksKey !in response.fields ==>
              r == Failure(EmptyResponseError(NoHomeworksText))
    ensures response.Object? && HomeworksKey in response.fields && !response.fields[HomeworksKey].Array? ==>
              r == Failure(TypeError(NotListText))
    ensures response.Object? && HomeworksKey in response.fields && response.fields[HomeworksKey].Array?
              && ErrorKey in response.fields ==>
              r == Failure(UnexpectedStatusCodeError(ApiErrorText))
    ensures r.Success? <==> response.Object? && HomeworksKey in response.fields
                            && response.fields[HomeworksKey].Array? && ErrorKey !in response.fields
    ensures r.Success? ==> Array(r.value) == response.fields[HomeworksKey]
  {
    if !response.Object? then Failure(TypeError(NotDictText))
    else if HomeworksKey !in response.fields then Failure(EmptyResponseError(NoHomeworksText))
    else
      var homeworks := response.fields[HomeworksKey];
      if !homeworks.Array? then Failure(TypeError(NotListText))
      else if ErrorKey in response.fields then Failure(UnexpectedStatusCodeError(ApiErrorText))
      else Success(homeworks.items)
  }

  /** An API-side error report without a work list is an EmptyResponseError, not an UnexpectedStatusCodeError. */
  lemma CheckResponseErrorOnly(fields: map<string, Json>)
    requires ErrorKey in fields && HomeworksKey !in fields
    ensures CheckResponse(Object(fields)) == Failure(EmptyResponseError(NoHomeworksText))
  {
  }

  /** Keys other than "homeworks" and "error" (such as "current_date") never change the verdict. */
  lemma CheckResponseIgnoresOtherKeys(fields: map<string, Json>, key: string, v: Json)
    requires key != HomeworksKey && key != ErrorKey
    ensures CheckResponse(Object(fields[key := v])) == CheckResponse(Object(fields))
  {
  }

  // ---------------------------------------------------------------------------
  // parse_status

  /**
   * parse_status: "homework_name" is looked up first, then "status", then the status in
   * the verdict table; a value that is not a dict fails on the first lookup.
   */
  function ParseStatus(homework: Json): (r: Checked<string>)
    ensures !homework.Object? ==> r == Failure(TypeError(NotSubscriptableText(homework)))
    ensures homework.Object? && NameKey !in homework.fields ==> r == Failure(KeyError(NoNameText))
    ensures homework.Object? && NameKey in homework.fields && StatusKey !in homework.fields ==>
              r == Failure(KeyError(NoStatusText))
    ensures homework.Object? && NameKey in homework.fields && StatusKey in homework.fields
              && !Hashable(homework.fields[StatusKey]) ==>
              r == Failure(TypeError(UnhashableText(homework.fields[StatusKey])))
    ensures homework.Object? && NameKey in homework.fields && StatusKey in homework.fields
              && Hashable(homework.fields[StatusKey]) && !homework.fields[StatusKey].Str? ==>
              r == Failure(KeyError(UnknownStatusText(homework.fields[StatusKey])))
    ensures homework.Object? && NameKey in homework.fields && StatusKey in homework.fields
              && homework.fields[StatusKey].Str? && homework.fields[StatusKey].s !in HomeworkVerdicts ==>
              r == Failure(KeyError(UnknownStatusText(homework.fields[StatusKey])))
    ensures r.Success? <==> homework.Object? && NameKey in homework.fields && StatusKey in homework.fields
                            && homework.fields[StatusKey].Str? && homework.fields[StatusKey].s in HomeworkVerdicts
    ensures r.Success? ==>
              r.value == Notification(PyStr(homework.fields[NameKey]), HomeworkVerdicts[homework.fields[StatusKey].s])
  {
    if !homework.Object? then Failure(TypeError(NotSubscriptableText(homework)))
    else if NameKey !in homework.fields then Failure(KeyError(NoNameText))
    else if StatusKey !in homework.fields then Failure(KeyError(NoStatusText))
    else
      var name := homework.fields[NameKey];
      var status := homework.fields[StatusKey];
      if !Hashable(status) then Failure(TypeError(UnhashableText(status)))
      else if !(status.Str? && status.s in HomeworkVerdicts) then Failure(KeyError(UnknownStatusText(status)))
      else Success(Notification(PyStr(name), HomeworkVerdicts[status.s]))
  }

  /** The text a notification for `status` ends with. */
  function VerdictTail(status: string): string
    requires status in HomeworkVerdicts
  {
    NotificationSeparator + HomeworkVerdicts[status]
  }

  /** `message` has the shape of a notification for `status`. */
  predicate Announces(message: string, status: string)
    requires status in HomeworkVerdicts
  {
    && |NotificationPrefix| + |VerdictTail(status)| <= |message|
    && message[..|NotificationPrefix|] == NotificationPrefix
    && message[|message| - |VerdictTail(status)|..] == VerdictTail(status)
  }

  /** The homework name between the prefix and the verdict of a notification for `status`. */
  function AnnouncedName(message: string, status: string): string
    requires status in HomeworkVerdicts && Announces(message, status)
  {
    message[|NotificationPrefix|..|message| - |VerdictTail(status)|]
  }

  /** Reads a notification back into the homework name and the status it announces. */
  function DecodeNotification(message: string): Option<(string, string)>
  {
    if Announces(message, "approved") then Some((AnnouncedName(message, "approved"), "approved"))
    else if Announces(message, "reviewing") then Some((AnnouncedName(message, "reviewing"), "reviewing"))
    else if Announces(message, "rejected") then Some((AnnouncedName(message, "rejected"), "rejected"))
    else None
  }

  /** The last two characters of a text. */
  function Ending(s: string): (char, char)
    requires |s| >= 2
  {
    (s[|s| - 2], s[|s| - 1])
  }

  lemma EndingOfSuffix(m: string, t: string)
    requires 2 <= |t| <= |m| && m[|m| - |t|..] == t
    ensures Ending(m) == Ending(t)
  {
    assert m[|m| - 1] == m[|m| - |t|..][|t| - 1];
    assert m[|m| - 2] == m[|m| - |t|..][|t| - 2];
  }

  /** The three verdicts end differently ("а!", "м.", "я."). */
  lemma VerdictEndings(status: string, other: string)
    requires status in HomeworkVerdicts && other in HomeworkVerdicts && other != status
    ensures |VerdictTail(status)| >= 2 && |VerdictTail(other)| >= 2
    ensures Ending(VerdictTail(status)) != Ending(VerdictTail(other))
  {
    assert HomeworkVerdicts["approved"] == ApprovedVerdict;
    assert HomeworkVerdicts["reviewing"] == ReviewingVerdict;
    assert HomeworkVerdicts["rejected"] == RejectedVerdict;
    assert Ending(NotificationSeparator + ApprovedVerdict) == ('а', '!');
    assert Ending(NotificationSeparator + ReviewingVerdict) == ('м', '.');
    assert Ending(NotificationSeparator + RejectedVerdict) == ('я', '.');
  }

  /** A notification is recognised by its own verdict only: no verdict text ends another's. */
  lemma AnnouncesOnlyItsStatus(name: string, status: string, other: string)
    requires status in HomeworkVerdicts && other in HomeworkVerdicts && other != status
    ensures !Announces(Notification(name, HomeworkVerdicts[status]), other)
  {
    var m := Notification(name, HomeworkVerdicts[status]);
    var t := VerdictTail(status);
    var u := VerdictTail(other);
    assert m == NotificationPrefix + name + t;
    SplitThree(NotificationPrefix, name, t);
    VerdictEndings(status, other);
    EndingOfSuffix(m, t);
    if |u| <= |m| && m[|m| - |u|..] == u {
      EndingOfSuffix(m, u);
    }
  }

  /** The three parts of a concatenation can be cut back out of it. */
  lemma SplitThree(p: string, x: string, t: string)
    ensures var m := p + x + t;
            && m[..|p|] == p && m[|m| - |t|..] == t && m[|p|..|m| - |t|] == x
  {
    var m := p + x + t;
    assert m[..|p|] == p;
    assert m[|m| - |t|..] == t;
    assert m[|p|..|m| - |t|] == x;
  }

  /** A notification has the shape of one for its own status, with the name in the middle. */
  lemma AnnouncesOwnStatus(name: string, status: string)
    requires status in HomeworkVerdicts
    ensures Announces(Notification(name, HomeworkVerdicts[status]), status)
    ensures AnnouncedName(Notification(name, HomeworkVerdicts[status]), status) == name
  {
    assert Notification(name, HomeworkVerdicts[status]) == NotificationPrefix + name + VerdictTail(status);
    SplitThree(NotificationPrefix, name, VerdictTail(status));
  }

  /** Every notification decodes to the name and the status it was built from. */
  lemma NotificationRoundTrip(name: string, status: string)
    requires status in HomeworkVerdicts
    ensures DecodeNotification(Notification(name, HomeworkVerdicts[status])) == Some((name, status))
  {
    AnnouncesOwnStatus(name, status);
    if status != "approved" {
      AnnouncesOnlyItsStatus(name, status, "approved");
    }
    if status == "rejected" {
      AnnouncesOnlyItsStatus(name, status, "reviewing");
    }
  }

  /** A message parse_status produces names the homework and its status exactly. */
  lemma ParseStatusRoundTrip(homework: Json)
    requires ParseStatus(homework).Success?
    ensures DecodeNotification(ParseStatus(homework).value)
            == Some((PyStr(homework.fields[NameKey]), homework.fields[StatusKey].s))
  {
    NotificationRoundTrip(PyStr(homework.fields[NameKey]), homework.fields[StatusKey].s);
  }

  /** Two homeworks give the same message exactly when their names read alike and their statuses agree. */
  lemma ParseStatusInjective(h1: Json, h2: Json)
    requires ParseStatus(h1).Success? && ParseStatus(h2).Success?
    ensures ParseStatus(h1) == ParseStatus(h2) <==>
            PyStr(h1.fields[NameKey]) == PyStr(h2.fields[NameKey]) && h1.fields[StatusKey] == h2.fields[StatusKey]
  {
    ParseStatusRoundTrip(h1);
    ParseStatusRoundTrip(h2);
  }
}
