/**
 * The pure part of the bot: the credential check, the response validator,
 * the status extractor and the fixed table of review verdicts.
 */
module Homework {
  import opened Exceptions
  import opened Json

  // Keys of the review API's payload.
  const HomeworksKey := "homeworks"
  const CurrentDateKey := "current_date"
  const NameKey := "homework_name"
  const StatusKey := "status"

  /** The three review statuses and the sentence each one is reported with. */
  const HomeworkVerdicts: map<string, string> := map[
    "approved" := "Работа проверена: ревьюеру всё понравилось. Ура!",
    "reviewing" := "Работа взята на проверку ревьюером.",
    "rejected" := "Работа проверена: у ревьюера есть замечания."
  ]

  // Texts the validator and the extractor raise their errors with.
  const BadResponseType := "Неверный тип данных API"
  const MissingHomeworks := "Отсутствует ключ homeworks"
  const BadHomeworksType := "Неверный тип данных домашки"
  const MissingCurrentDate := "Отсутствует ключ current_date"
  const MissingName := "Отсутствует необходимый ключ homework_name"
  const MissingStatus := "Отсутствует необходимый ключ status"
  const NoVerdict := "Отсутствует вердикт для данного статуса"

  const NotificationPrefix := "Изменился статус проверки работы \""
  const NotificationInfix := "\": "

  /**
   * The text sent when homework `name` has received `verdict`: the fixed
   * opening, the name, the fixed infix, and the verdict unaltered as its tail.
   */
  function Notification(name: string, verdict: string): (r: string)
    ensures |r| == |NotificationPrefix| + |name| + |NotificationInfix| + |verdict|
    ensures r[..|NotificationPrefix|] == NotificationPrefix
    ensures r[|NotificationPrefix|..|NotificationPrefix| + |name|] == name
    ensures r[|NotificationPrefix| + |name|..|r| - |verdict|] == NotificationInfix
    ensures r[|r| - |verdict|..] == verdict
  {
    var r := NotificationPrefix + name + NotificationInfix + verdict;
    assert r == (NotificationPrefix + name) + (NotificationInfix + verdict);
    assert r == (NotificationPrefix + name + NotificationInfix) + verdict;
    r
  }

  // ---------------------------------------------------------------------
  // check_tokens

  /** What `os.getenv` returns: None for an unset variable, else its text. */
  datatype Option<+T> = None | Some(value: T)

  /** An environment variable is usable when it is set and not empty. */
  predicate IsSet(v: Option<string>)
  {
    v.Some? && v.value != ""
  }

  /**
   * `check_tokens()` over the three values `os.getenv` returned: Python's
   * True when all three are truthy, otherwise it falls off the end and
   * yields None.
   */
  function CheckTokens(practicumToken: Option<string>, telegramToken: Option<string>,
                       telegramChatId: Option<string>): (r: Json)
    ensures r == JBool(true) || r == JNull
    ensures Truthy(r) <==> IsSet(practicumToken) && IsSet(telegramToken) && IsSet(telegramChatId)
  {
    if IsSet(practicumToken) && IsSet(telegramToken) && IsSet(telegramChatId) then JBool(true)
    else JNull
  }

  // ---------------------------------------------------------------------
  // check_response

  /** A response that passes all four shape checks of the validator. */
  ghost predicate WellShaped(response: Json)
  {
    response.JObject? && HomeworksKey in response.fields && CurrentDateKey in response.fields
    && response.fields[HomeworksKey].JArray?
  }

  /**
   * `check_response(response)`: the shape checks in their order, then the
   * unguarded `response['homeworks'][0]`.
   */
  function CheckResponse(response: Json): (r: Result<Json>)
    // The first violated check decides the error.
    ensures !response.JObject? ==> r == Err(TypeError(BadResponseType))
    ensures response.JObject? && HomeworksKey !in response.fields
            ==> r == Err(KeyError(MissingHomeworks))
    ensures response.JObject? && HomeworksKey in response.fields
            && !response.fields[HomeworksKey].JArray?
            ==> r == Err(TypeError(BadHomeworksType))
    ensures response.JObject? && HomeworksKey in response.fields
            && response.fields[HomeworksKey].JArray? && CurrentDateKey !in response.fields
            ==> r == Err(KeyError(MissingCurrentDate))
    // A well-shaped response with no homework fails on the index, not on a check.
    ensures WellShaped(response) && response.fields[HomeworksKey].elems == []
            ==> r == Err(IndexError(ListIndexOutOfRange))
    // Success exactly on a well-shaped response with some homework, whose
    // first element is returned unchanged.
    ensures r.Ok? <==> WellShaped(response) && response.fields[HomeworksKey].elems != []
    ensures r.Ok? ==> r.value == response.fields[HomeworksKey].elems[0]
  {
    if !response.JObject? then Err(TypeError(BadResponseType))
    else if HomeworksKey !in response.fields then Err(KeyError(MissingHomeworks))
    else if !response.fields[HomeworksKey].JArray? then Err(TypeError(BadHomeworksType))
    else if CurrentDateKey !in response.fields then Err(KeyError(MissingCurrentDate))
    else
      var homeworks := response.fields[HomeworksKey].elems;
      if |homeworks| == 0 then Err(IndexError(ListIndexOutOfRange)) else Ok(homeworks[0])
  }

  // ---------------------------------------------------------------------
  // parse_status

  /** `status in HOMEWORK_VERDICTS`: lists and dicts cannot be hashed. */
  function IsKnownStatus(status: Json): (r: Result<bool>)
    ensures r.Err? <==> status.JArray? || status.JObject?
    ensures r.Err? ==> r.error == TypeError(Unhashable(TypeName(status)))
    ensures r.Ok? ==> (r.value <==> status.JString? && status.s in HomeworkVerdicts)
  {
    match status
    case JArray(_) => Err(TypeError(Unhashable(TypeName(status))))
    case JObject(_) => Err(TypeError(Unhashable(TypeName(status))))
    case JString(s) => Ok(s in HomeworkVerdicts)
    case _ => Ok(false)
  }

  /** A homework record that the extractor turns into a notification. */
  ghost predicate IsReportable(homework: Json)
  {
    homework.JObject? && NameKey in homework.fields && StatusKey in homework.fields
    && homework.fields[StatusKey] in {JString("approved"), JString("reviewing"), JString("rejected")}
  }

  /**
   * `parse_status(homework)`: the two key checks in their order, the
   * verdict lookup and the formatted notification.  `in` and `[]` follow
   * Python on any value: a string is searched for a substring, a list for an
   * element, and anything that is neither those nor a dict fails with a
   * TypeError.
   */
  function ParseStatus(homework: Json): (r: Result<string>)
    ensures r.Ok? <==> IsReportable(homework)
    ensures r.Ok? ==> r.value == Notification(Str(homework.fields[NameKey]),
                                              HomeworkVerdicts[homework.fields[StatusKey].s])
    // On a dict the first violated requirement decides the error.
    ensures homework.JObject? && NameKey !in homework.fields
            ==> r == Err(KeyError(MissingName))
    ensures homework.JObject? && NameKey in homework.fields && StatusKey !in homework.fields
            ==> r == Err(KeyError(MissingStatus))
    ensures homework.JObject? && NameKey in homework.fields && StatusKey in homework.fields
            && !IsReportable(homework)
            && !(homework.fields[StatusKey].JArray? || homework.fields[StatusKey].JObject?)
            ==> r == Err(KeyError(NoVerdict))
    ensures homework.JObject? && NameKey in homework.fields && StatusKey in homework.fields
            && (homework.fields[StatusKey].JArray? || homework.fields[StatusKey].JObject?)
            ==> r == Err(TypeError(Unhashable(TypeName(homework.fields[StatusKey]))))
    // On a value that `in` cannot search, that TypeError is the result.
    ensures In(homework, NameKey).Err? ==> r == Err(In(homework, NameKey).error)
    // A string or list holding the name key fails on the subscript.
    ensures homework.JString? || homework.JArray?
            ==> (In(homework, NameKey) == Ok(false) ==> r == Err(KeyError(MissingName)))
                && (In(homework, NameKey) == Ok(true) && In(homework, StatusKey) == Ok(false)
                    ==> r == Err(KeyError(MissingStatus)))
                && (In(homework, NameKey) == Ok(true) && In(homework, StatusKey) == Ok(true)
                    ==> r == Err(GetItem(homework, NameKey).error))
    // Every failure is a KeyError or a TypeError.
    ensures r.Err? ==> r.error.KeyError? || r.error.TypeError?
  {
    var hasName :- In(homework, NameKey);
    // The second `in` cannot raise once the first one did not.
    if !hasName then Err(KeyError(MissingName))
    else if !In(homework, StatusKey).value then Err(KeyError(MissingStatus))
    else
      var name :- GetItem(homework, NameKey);
      // Only a dict gets this far, and it holds both keys.
      var status := GetItem(homework, StatusKey).value;
      var known :- IsKnownStatus(status);
      if !known then Err(KeyError(NoVerdict))
      else Ok(Notification(Str(name), HomeworkVerdicts[status.s]))
  }

  // ---------------------------------------------------------------------
  // Properties of the extractor

  /** The three verdict sentences are pairwise distinct. */
  lemma VerdictsDistinct(s1: string, s2: string)
    requires s1 in HomeworkVerdicts && s2 in HomeworkVerdicts && s1 != s2
    ensures HomeworkVerdicts[s1] != HomeworkVerdicts[s2]
  {
    var approved := HomeworkVerdicts["approved"];
    var reviewing := HomeworkVerdicts["reviewing"];
    var rejected := HomeworkVerdicts["rejected"];
    assert |approved| != |reviewing|;
    assert |reviewing| != |rejected|;
    assert |approved| != |rejected|;
  }

  /** Two records with the same name and different valid statuses yield different texts. */
  lemma DistinctStatusesDistinctNotifications(h1: Json, h2: Json)
    requires IsReportable(h1) && IsReportable(h2)
    requires h1.fields[NameKey] == h2.fields[NameKey]
    requires h1.fields[StatusKey] != h2.fields[StatusKey]
    ensures ParseStatus(h1).Ok? && ParseStatus(h2).Ok?
    ensures ParseStatus(h1).value != ParseStatus(h2).value
  {
    var v1 := HomeworkVerdicts[h1.fields[StatusKey].s];
    var v2 := HomeworkVerdicts[h2.fields[StatusKey].s];
    VerdictsDistinct(h1.fields[StatusKey].s, h2.fields[StatusKey].s);
    var name := Str(h1.fields[NameKey]);
    AppendInjective(NotificationPrefix + name + NotificationInfix, v1, v2);
  }

  /** Appending different tails to the same head gives different strings. */
  lemma AppendInjective(head: string, a: string, b: string)
    requires a != b
    ensures head + a != head + b
  {
    assert (head + a)[|head|..] == a;
    assert (head + b)[|head|..] == b;
  }

  /** The notification depends on the record only through its name and status. */
  lemma ParseStatusReadsNameAndStatus(h1: Json, h2: Json)
    requires h1.JObject? && h2.JObject?
    requires NameKey in h1.fields <==> NameKey in h2.fields
    requires StatusKey in h1.fields <==> StatusKey in h2.fields
    requires NameKey in h1.fields ==> h1.fields[NameKey] == h2.fields[NameKey]
    requires StatusKey in h1.fields ==> h1.fields[StatusKey] == h2.fields[StatusKey]
    ensures ParseStatus(h1) == ParseStatus(h2)
  {
  }
}
