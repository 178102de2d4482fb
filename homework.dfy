/** The request rule, the response validator, the status interpreter and the
    token check of homework.py: everything in one poll cycle that does not talk
    to the network or to Telegram. */
module Homework {
  import opened Wrappers
  import opened PyJson

  /** HOMEWORK_STATUSES: review status code to the verdict sentence. */
  const Statuses: map<string, string> := map[
    "approved" := "Работа проверена: ревьюеру всё понравилось. Ура!",
    "reviewing" := "Работа взята на проверку ревьюером.",
    "rejected" := "Работа проверена: у ревьюера есть замечания."
  ]

  /** The text before the homework name in every status notification. */
  const NoticeHead: string := "Изменился статус проверки работы \""

  /** The text between the homework name and the verdict. */
  const NoticeGlue: string := "\". "

  /** Every way a poll cycle can fail, one kind per check of the source. */
  datatype Err =
    | Transport(reason: string)    // requests.get raised; its text is the library's
    | ApiStatus(code: int)         // status code other than 200
    | NotJson(reason: string)      // response.json() raised; its text is the library's
    | ResponseNotDict              // check_response: payload is not a dict
    | HomeworksMissing             // check_response: no 'homeworks' key
    | HomeworksNotList             // check_response: 'homeworks' is not a list
    | HomeworksEmpty               // check_response: homeworks[0] on an empty list
    | NameMissing                  // parse_status: no 'homework_name'
    | StatusMissing                // parse_status: no 'status'
    | UnknownStatus                // parse_status: status not in HOMEWORK_STATUSES
    | Runtime(py: PyError)         // the interpreter refused an `in` or a `[]`
    | NameNotRenderable            // homework_name is a list or a dict

  /** str(error) for the exception each failure raises, which the main loop
      embeds in its failure report. A KeyError shows its message quoted. A
      non-200 status raises the None that logger.error returns, so Python
      raises its TypeError about that instead, and the code is not shown. */
  function Describe(e: Err): (r: string)
    ensures e.ApiStatus? ==> r == "exceptions must derive from BaseException"
    ensures (e.Transport? || e.NotJson?) ==> r == e.reason
    ensures (e.HomeworksMissing? || e.NameMissing? || e.StatusMissing?)
            ==> |r| >= 2 && r[0] == '\'' && r[|r| - 1] == '\''
    ensures e.Runtime? ==> r == Message(e.py)
  {
    match e
    case Transport(reason) => reason
    case ApiStatus(_) => "exceptions must derive from BaseException"
    case NotJson(reason) => reason
    case ResponseNotDict => "Ошибка в типе ответа API"
    case HomeworksMissing => "'В ответе API нет ключа homeworks'"
    case HomeworksNotList => "Homeworks не является списком"
    case HomeworksEmpty => "list index out of range"
    case NameMissing => "'В ответе API отсутсвует ключ homework_name'"
    case StatusMissing => "'В ответе API отсутсвует ключ status'"
    case UnknownStatus => "Неизвестный статус работы"
    case Runtime(py) => Message(py)
    case NameNotRenderable => "homework_name is a list or a dict"
  }

  /** The failures check_response and parse_status raise themselves. */
  predicate IsValidationError(e: Err) {
    e.ResponseNotDict? || e.HomeworksMissing? || e.HomeworksNotList? || e.HomeworksEmpty?
    || e.NameMissing? || e.StatusMissing? || e.UnknownStatus?
  }

  /** Each validation failure reads differently in the failure report. */
  lemma ValidationErrorsDistinguishable(e1: Err, e2: Err)
    requires IsValidationError(e1) && IsValidationError(e2)
    ensures Describe(e1) == Describe(e2) <==> e1 == e2
  {
  }

  // ----- get_api_answer ---------------------------------------------------

  /** What the HTTP round trip produced. */
  datatype Reply =
    | Unreachable(reason: string)              // requests.get raised
    | Answered(statusCode: int, body: Body)

  datatype Body = Decoded(payload: Json) | Garbled(reason: string)

  /** The `from_date` query parameter: the watermark, or the current time when
      the watermark is 0 (Python's `or` on an int). */
  function FromDate(timestamp: int, now: int): (r: int)
    ensures timestamp != 0 ==> r == timestamp
    ensures timestamp == 0 ==> r == now
    ensures r == 0 ==> timestamp == 0 && now == 0
  {
    if timestamp != 0 then timestamp else now
  }

  /** The payload get_api_answer returns, or why it raised: a status check
      before the body is decoded. */
  function ApiAnswer(reply: Reply): (r: Result<Json, Err>)
    ensures r.Ok? <==> reply.Answered? && reply.statusCode == 200 && reply.body.Decoded?
    ensures r.Ok? ==> r.value == reply.body.payload
    ensures reply.Answered? && reply.statusCode != 200 ==> r == Err(ApiStatus(reply.statusCode))
    ensures reply.Unreachable? ==> r == Err(Transport(reply.reason))
    ensures (reply.Answered? && reply.statusCode == 200 && reply.body.Garbled?)
            ==> r == Err(NotJson(reply.body.reason))
  {
    match reply
    case Unreachable(reason) => Err(Transport(reason))
    case Answered(code, body) =>
      if code != 200 then Err(ApiStatus(code))
      else match body
        case Decoded(payload) => Ok(payload)
        case Garbled(reason) => Err(NotJson(reason))
  }

  // ----- check_response ---------------------------------------------------

  /** The most recent homework entry, checked fail-fast: a dict, with a
      'homeworks' key, holding a list, that is not empty. The entry itself is
      not inspected. */
  function CheckResponse(response: Json): (r: Result<Json, Err>)
    ensures !response.JObject? ==> r == Err(ResponseNotDict)
    ensures response.JObject? && "homeworks" !in response.fields ==> r == Err(HomeworksMissing)
    ensures (response.JObject? && "homeworks" in response.fields
             && !response.fields["homeworks"].JArray?) ==> r == Err(HomeworksNotList)
    ensures (response.JObject? && "homeworks" in response.fields
             && response.fields["homeworks"] == JArray([])) ==> r == Err(HomeworksEmpty)
    ensures r.Ok? <==> (response.JObject? && "homeworks" in response.fields
                        && response.fields["homeworks"].JArray?
                        && |response.fields["homeworks"].items| > 0)
    ensures r.Ok? ==> r.value == response.fields["homeworks"].items[0]
  {
    if !response.JObject? then Err(ResponseNotDict)
    else if "homeworks" !in response.fields then Err(HomeworksMissing)
    else
      var homeworks := response.fields["homeworks"];
      if !homeworks.JArray? then Err(HomeworksNotList)
      else if homeworks.items == [] then Err(HomeworksEmpty)
      else Ok(homeworks.items[0])
  }

  // ----- parse_status -----------------------------------------------------

  /** A status value HOMEWORK_STATUSES has a verdict for. */
  predicate IsKnownStatus(v: Json) {
    v.JString? && v.str in Statuses
  }

  /** The notification text for a homework name and a verdict. */
  function Notice(name: string, verdict: string): (r: string)
    ensures |r| == |NoticeHead| + |name| + |NoticeGlue| + |verdict|
    ensures r[..|NoticeHead|] == NoticeHead
    ensures r[|NoticeHead|..|NoticeHead| + |name|] == name
    ensures r[|NoticeHead| + |name|..|r| - |verdict|] == NoticeGlue
    ensures r[|r| - |verdict|..] == verdict
  {
    var r := NoticeHead + name + NoticeGlue + verdict;
    assert r[|NoticeHead|..|NoticeHead| + |name|] == name;
    assert r[|NoticeHead| + |name|..|r| - |verdict|] == NoticeGlue;
    assert r[|r| - |verdict|..] == verdict;
    r
  }

  function Lift<T>(r: Result<T, PyError>): (l: Result<T, Err>)
    ensures l.Ok? <==> r.Ok?
    ensures l.Ok? ==> l.value == r.value
  {
    match r
    case Ok(v) => Ok(v)
    case Err(e) => Err(Runtime(e))
  }

  /** The notification text for a homework entry: 'homework_name' present,
      then 'status' present, then the status known, checked in that order. */
  function ParseStatus(homework: Json): (r: Result<string, Err>)
    ensures !homework.JObject? ==> r.Err?
    ensures homework.JObject? && "homework_name" !in homework.fields ==> r == Err(NameMissing)
    ensures (homework.JObject? && "homework_name" in homework.fields
             && "status" !in homework.fields) ==> r == Err(StatusMissing)
    ensures (homework.JObject? && "homework_name" in homework.fields && "status" in homework.fields
             && !IsKnownStatus(homework.fields["status"])) ==> r.Err?
    ensures (homework.JObject? && "homework_name" in homework.fields && "status" in homework.fields
             && !IsKnownStatus(homework.fields["status"])
             && !homework.fields["status"].JArray? && !homework.fields["status"].JObject?)
            ==> r == Err(UnknownStatus)
    ensures r.Ok? <==> (homework.JObject? && "homework_name" in homework.fields
                        && "status" in homework.fields && IsKnownStatus(homework.fields["status"])
                        && Str(homework.fields["homework_name"]).Some?)
    ensures r.Ok? ==> r.value == Notice(Str(homework.fields["homework_name"]).value,
                                        Statuses[homework.fields["status"].str])
  {
    var hasName :- Lift(Contains(homework, "homework_name"));
    if !hasName then Err(NameMissing) else
    // `in` already succeeded once, so it succeeds again
    var hasStatus := Contains(homework, "status").value;
    if !hasStatus then Err(StatusMissing) else
    var name :- Lift(GetItem(homework, "homework_name"));
    // only a dict got past the subscript above
    var status := homework.fields["status"];
    var known :- Lift(IsKeyOf(status, Statuses.Keys));
    if !known then Err(UnknownStatus) else
    match Str(name)
    case None => Err(NameNotRenderable)
    case Some(text) => Ok(Notice(text, Statuses[status.str]))
  }

  /** The last two characters of a verdict tell which status it is for. */
  lemma VerdictsEndDifferently(s1: string, s2: string)
    requires s1 in Statuses && s2 in Statuses
    requires Statuses[s1][|Statuses[s1]| - 1] == Statuses[s2][|Statuses[s2]| - 1]
    requires Statuses[s1][|Statuses[s1]| - 2] == Statuses[s2][|Statuses[s2]| - 2]
    ensures s1 == s2
  {
  }

  /** The text of a notification determines the homework name and the status
      that produced it, so a change of either is always a change of text. */
  lemma NoticeDeterminesNameAndStatus(n1: string, s1: string, n2: string, s2: string)
    requires s1 in Statuses && s2 in Statuses
    ensures Notice(n1, Statuses[s1]) == Notice(n2, Statuses[s2]) <==> n1 == n2 && s1 == s2
  {
    var v1, v2 := Statuses[s1], Statuses[s2];
    var t1, t2 := Notice(n1, v1), Notice(n2, v2);
    if t1 == t2 {
      assert t1[|t1| - |v1|..] == v1;
      assert t2[|t2| - |v2|..] == v2;
      assert t1[|t1| - 1] == v1[|v1| - 1] && t1[|t1| - 2] == v1[|v1| - 2];
      assert t2[|t2| - 1] == v2[|v2| - 1] && t2[|t2| - 2] == v2[|v2| - 2];
      VerdictsEndDifferently(s1, s2);
      assert |n1| == |n2|;
      assert t1[|NoticeHead|..|NoticeHead| + |n1|] == n1;
      assert t2[|NoticeHead|..|NoticeHead| + |n2|] == n2;
    }
  }

  // ----- check_tokens -----------------------------------------------------

  /** Whether both tokens are set (os.getenv gives None for an unset variable);
      an empty token counts as set, and the chat id is not consulted. */
  function CheckTokens(practicumToken: Option<string>, telegramToken: Option<string>): (ok: bool)
    ensures ok <==> practicumToken.Some? && telegramToken.Some?
  {
    !(telegramToken.None? || practicumToken.None?)
  }
}
