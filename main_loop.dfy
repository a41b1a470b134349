/**
 * One pass of the bot's polling loop: fetch, validate, advance the cursor,
 * extract and notify, and on any error notify the failure unless the stored
 * last-error text already contains it.  The HTTP fetch and the Telegram
 * sends are abstract: the fetch arrives as an input, and of the sends only
 * the outcome that the loop reads is an input.
 */
module MainLoop {
  import opened Exceptions
  import opened Json
  import opened Homework

  const FailurePrefix := "Сбой в работе программы: "
  const StatusNotUpdated := "Статус домашней работы не обновлен"

  /** The text the loop reports error `e` with: the fixed opening, then `str(e)`. */
  function FailureText(e: Error): (r: string)
    ensures |r| == |FailurePrefix| + |Describe(e)|
    ensures r[..|FailurePrefix|] == FailurePrefix && r[|FailurePrefix|..] == Describe(e)
  {
    FailurePrefix + Describe(e)
  }

  /** What `get_api_answer(timestamp)` gave: a decoded body or an EndpointStatusError. */
  datatype Fetch = Answer(body: Json) | EndpointFailure(detail: string)

  /** The two variables the loop carries from one pass to the next. */
  datatype State = State(timestamp: Json, errorMessage: string)

  /** The state after one pass and the texts it sent, in order. */
  datatype Pass = Pass(next: State, sent: seq<string>)

  /** The try block: the cursor it leaves and the status text or the error it ends with. */
  datatype Attempt = Attempt(cursor: Json, outcome: Result<string>)

  /** homework.py:116-123: fetch, check_response, the cursor update, the falsy test and parse_status. */
  function TryBody(timestamp: Json, fetch: Fetch): (a: Attempt)
    // A failed fetch or a rejected response leaves the cursor where it was.
    ensures fetch.EndpointFailure?
            ==> a == Attempt(timestamp, Err(EndpointStatusError(fetch.detail)))
    ensures fetch.Answer? && CheckResponse(fetch.body).Err?
            ==> a == Attempt(timestamp, Err(CheckResponse(fetch.body).error))
    // An accepted response moves the cursor to the server's current_date,
    // whatever happens to the homework afterwards.
    ensures fetch.Answer? && CheckResponse(fetch.body).Ok?
            ==> a.cursor == fetch.body.fields[CurrentDateKey]
    // A falsy first homework is reported as not critical; a truthy one is parsed.
    ensures fetch.Answer? && CheckResponse(fetch.body).Ok? && !Truthy(CheckResponse(fetch.body).value)
            ==> a.outcome == Err(NotCriticalError(StatusNotUpdated))
    ensures fetch.Answer? && CheckResponse(fetch.body).Ok? && Truthy(CheckResponse(fetch.body).value)
            ==> a.outcome == ParseStatus(CheckResponse(fetch.body).value)
  {
    match fetch
    case EndpointFailure(detail) => Attempt(timestamp, Err(EndpointStatusError(detail)))
    case Answer(response) =>
      match CheckResponse(response)
      case Err(e) => Attempt(timestamp, Err(e))
      case Ok(homework) =>
        var cursor := Get(response.fields, CurrentDateKey, timestamp);
        if !Truthy(homework) then Attempt(cursor, Err(NotCriticalError(StatusNotUpdated)))
        else Attempt(cursor, ParseStatus(homework))
  }

  /**
   * One pass of the loop from state `s`.  `delivered` is what the second
   * send of a failure text returns; no other send outcome is read.
   */
  function Cycle(s: State, fetch: Fetch, delivered: bool): (p: Pass)
    // The cursor is the one the try block leaves.
    ensures p.next.timestamp == TryBody(s.timestamp, fetch).cursor
    // A status text is sent exactly once, and the last error is kept.
    ensures TryBody(s.timestamp, fetch).outcome.Ok?
            ==> p.sent == [TryBody(s.timestamp, fetch).outcome.value]
                && p.next.errorMessage == s.errorMessage
    // A failure already contained in the last error is not sent again.
    ensures TryBody(s.timestamp, fetch).outcome.Err?
            && Contains(s.errorMessage, FailureText(TryBody(s.timestamp, fetch).outcome.error))
            ==> p.sent == [] && p.next.errorMessage == s.errorMessage
    // Any other failure is sent twice, and recorded only if the second send got through.
    ensures TryBody(s.timestamp, fetch).outcome.Err?
            && !Contains(s.errorMessage, FailureText(TryBody(s.timestamp, fetch).outcome.error))
            ==> var m := FailureText(TryBody(s.timestamp, fetch).outcome.error);
                p.sent == [m, m]
                && p.next.errorMessage == (if delivered then m else s.errorMessage)
  {
    var a := TryBody(s.timestamp, fetch);
    match a.outcome
    case Ok(status) => Pass(State(a.cursor, s.errorMessage), [status])
    case Err(e) =>
      var message := FailureText(e);
      if Contains(s.errorMessage, message) then Pass(State(a.cursor, s.errorMessage), [])
      else Pass(State(a.cursor, if delivered then message else s.errorMessage), [message, message])
  }

  /** The last-error text is empty or opens like every failure text the loop sends. */
  ghost predicate ValidErrorMessage(errorMessage: string)
  {
    errorMessage == ""
    || (|FailurePrefix| <= |errorMessage| && errorMessage[..|FailurePrefix|] == FailurePrefix)
  }

  /** A pass keeps the last-error text empty or a failure text. */
  lemma CycleKeepsValidErrorMessage(s: State, fetch: Fetch, delivered: bool)
    requires ValidErrorMessage(s.errorMessage)
    ensures ValidErrorMessage(Cycle(s, fetch, delivered).next.errorMessage)
  {
    var a := TryBody(s.timestamp, fetch);
    if a.outcome.Err? {
      var m := FailureText(a.outcome.error);
      assert m[..|FailurePrefix|] == FailurePrefix;
    }
  }

  /** The loop's own state: the poll cursor and the last error it reported. */
  class Poller {
    var timestamp: Json
    var errorMessage: string

    ghost predicate Valid()
      reads this
    {
      ValidErrorMessage(errorMessage)
    }

    ghost function Snapshot(): State
      reads this
    {
      State(timestamp, errorMessage)
    }

    /** homework.py:112-113: the cursor starts at the current time, with no error reported. */
    constructor (now: int)
      ensures Valid()
      ensures timestamp == JInt(now) && errorMessage == ""
    {
      timestamp := JInt(now);
      errorMessage := "";
    }

    /** homework.py:115-130: one pass of the loop; returns the texts sent, in order. */
    method Step(fetch: Fetch, delivered: bool) returns (sent: seq<string>)
      requires Valid()
      modifies this
      ensures Valid()
      ensures Snapshot() == Cycle(old(Snapshot()), fetch, delivered).next
      ensures sent == Cycle(old(Snapshot()), fetch, delivered).sent
    {
      CycleKeepsValidErrorMessage(Snapshot(), fetch, delivered);
      sent := [];
      var failure: Option<Error> := None;
      match fetch {
        case EndpointFailure(detail) =>
          failure := Some(EndpointStatusError(detail));
        case Answer(response) =>
          var checked := CheckResponse(response);
          if checked.Err? {
            failure := Some(checked.error);
          } else {
            var homework := checked.value;
            timestamp := Get(response.fields, CurrentDateKey, timestamp);
            if !Truthy(homework) {
              failure := Some(NotCriticalError(StatusNotUpdated));
            } else {
              var status := ParseStatus(homework);
              if status.Err? {
                failure := Some(status.error);
              } else {
                // The outcome of this send is not read.
                sent := sent + [status.value];
              }
            }
          }
      }
      if failure.Some? {
        var message := FailureText(failure.value);
        if !Contains(errorMessage, message) {
          // The first send's outcome is not read; the second one decides.
          sent := sent + [message];
          sent := sent + [message];
          if delivered {
            errorMessage := message;
          }
        }
      }
    }
  }

  /**
   * homework.py:108-113: without all three credentials the bot stops before the
   * loop; otherwise it starts polling from `now` with no error reported.
   */
  method Launch(practicumToken: Option<string>, telegramToken: Option<string>,
                telegramChatId: Option<string>, now: int) returns (poller: Poller?)
    ensures poller == null <==> !Truthy(CheckTokens(practicumToken, telegramToken, telegramChatId))
    ensures poller != null ==> fresh(poller) && poller.Valid()
                               && poller.Snapshot() == State(JInt(now), "")
  {
    if !Truthy(CheckTokens(practicumToken, telegramToken, telegramChatId)) {
      return null;
    }
    poller := new Poller(now);
  }

  // ---------------------------------------------------------------------
  // Properties of a pass

  /** A pass sends nothing, one status text, or one failure text twice. */
  lemma SentShapes(s: State, fetch: Fetch, delivered: bool)
    ensures var p := Cycle(s, fetch, delivered);
            p.sent == [] || |p.sent| == 1 || (|p.sent| == 2 && p.sent[0] == p.sent[1])
  {
  }

  /**
   * Once a failure text is recorded, the same failure in the next pass is
   * suppressed: nothing is sent and the last error stays.
   */
  lemma RepeatedFailureSuppressed(s: State, f1: Fetch, f2: Fetch, ok: bool)
    requires Cycle(s, f1, true).sent != [] && TryBody(s.timestamp, f1).outcome.Err?
    requires TryBody(Cycle(s, f1, true).next.timestamp, f2).outcome
             == TryBody(s.timestamp, f1).outcome
    ensures var s1 := Cycle(s, f1, true).next;
            Cycle(s1, f2, ok).sent == [] && Cycle(s1, f2, ok).next.errorMessage == s1.errorMessage
  {
    var m := FailureText(TryBody(s.timestamp, f1).outcome.error);
    assert Cycle(s, f1, true).next.errorMessage == m;
    ContainsPrefix(m, m);
  }

  /**
   * Suppression tests containment, not equality: once a failure text is
   * recorded, a different failure whose text is a proper prefix of it is
   * not reported, and the last error stays.
   */
  lemma ShorterFailureSuppressed(s: State, fetch: Fetch, delivered: bool, recorded: Error)
    requires s.errorMessage == FailureText(recorded)
    requires TryBody(s.timestamp, fetch).outcome.Err?
    requires var e := TryBody(s.timestamp, fetch).outcome.error;
             |Describe(e)| < |Describe(recorded)|
             && Describe(e) == Describe(recorded)[..|Describe(e)|]
    ensures FailureText(TryBody(s.timestamp, fetch).outcome.error) != s.errorMessage
    ensures Cycle(s, fetch, delivered).sent == []
    ensures Cycle(s, fetch, delivered).next.errorMessage == s.errorMessage
  {
    var e := TryBody(s.timestamp, fetch).outcome.error;
    var m1, m2 := FailureText(recorded), FailureText(e);
    assert m1[..|m2|] == m2 by {
      assert m1[..|m2|] == FailurePrefix + Describe(recorded)[..|Describe(e)|];
    }
    ContainsPrefix(m1, m2);
  }

  /** The last-error text is never cleared: it changes only to a failure text that was just sent twice. */
  lemma ErrorMessageChangesOnlyBySending(s: State, fetch: Fetch, delivered: bool)
    ensures var p := Cycle(s, fetch, delivered);
            p.next.errorMessage == s.errorMessage
            || (delivered && p.sent == [p.next.errorMessage, p.next.errorMessage]
                && !Contains(s.errorMessage, p.next.errorMessage))
  {
  }

  // ---------------------------------------------------------------------
  // Whole passes on concrete inputs

  /** A response with one approved homework: its notification is sent once and the cursor moves. */
  lemma ApprovedHomeworkPass(timestamp: Json, errorMessage: string, delivered: bool)
    ensures var homework := JObject(map[NameKey := JString("hw1"), StatusKey := JString("approved")]);
            var body := JObject(map[HomeworksKey := JArray([homework]), CurrentDateKey := JInt(1000)]);
            Cycle(State(timestamp, errorMessage), Answer(body), delivered)
            == Pass(State(JInt(1000), errorMessage),
                    ["Изменился статус проверки работы \"" + "hw1" + "\": " + "Работа проверена: ревьюеру всё понравилось. Ура!"])
  {
    var homework := JObject(map[NameKey := JString("hw1"), StatusKey := JString("approved")]);
    var body := JObject(map[HomeworksKey := JArray([homework]), CurrentDateKey := JInt(1000)]);
    assert CheckResponse(body) == Ok(homework);
    var text := "Изменился статус проверки работы \"" + "hw1" + "\": " + "Работа проверена: ревьюеру всё понравилось. Ура!";
    assert Notification("hw1", HomeworkVerdicts["approved"]) == text;
    assert ParseStatus(homework) == Ok(text);
    assert TryBody(timestamp, Answer(body)) == Attempt(JInt(1000), Ok(text));
  }

  /** A first failed fetch is reported twice, and recorded when the second send gets through. */
  lemma FirstFetchFailurePass(timestamp: Json, detail: string, delivered: bool)
    ensures var m := FailurePrefix + detail;
            Cycle(State(timestamp, ""), EndpointFailure(detail), delivered)
            == Pass(State(timestamp, if delivered then m else ""), [m, m])
  {
  }

  /**
   * An empty homework list fails on the index inside check_response, before
   * the cursor update: the cursor stays and the IndexError text is reported
   * (NotCriticalError is raised only for a falsy first homework).
   */
  lemma EmptyHomeworksPass(timestamp: Json, delivered: bool)
    ensures var body := JObject(map[HomeworksKey := JArray([]), CurrentDateKey := JInt(100)]);
            var m := "Сбой в работе программы: " + "list index out of range";
            Cycle(State(timestamp, ""), Answer(body), delivered)
            == Pass(State(timestamp, if delivered then m else ""), [m, m])
  {
    var body := JObject(map[HomeworksKey := JArray([]), CurrentDateKey := JInt(100)]);
    var m := "Сбой в работе программы: " + "list index out of range";
    assert CheckResponse(body) == Err(IndexError(ListIndexOutOfRange));
    assert FailureText(IndexError(ListIndexOutOfRange)) == m;
    assert TryBody(timestamp, Answer(body)) == Attempt(timestamp, Err(IndexError(ListIndexOutOfRange)));
    assert !Contains("", m);
  }

  /**
   * A falsy first homework raises NotCriticalError, and the loop reports it
   * like any other failure: twice on its first occurrence, after the cursor
   * has moved to the response's current_date.
   */
  lemma FalsyHomeworkReported(timestamp: Json, delivered: bool)
    ensures var body := JObject(map[HomeworksKey := JArray([JObject(map[])]), CurrentDateKey := JInt(5)]);
            var m := "Сбой в работе программы: " + "Статус домашней работы не обновлен";
            Cycle(State(timestamp, ""), Answer(body), delivered)
            == Pass(State(JInt(5), if delivered then m else ""), [m, m])
  {
    var body := JObject(map[HomeworksKey := JArray([JObject(map[])]), CurrentDateKey := JInt(5)]);
    var m := "Сбой в работе программы: " + "Статус домашней работы не обновлен";
    assert CheckResponse(body) == Ok(JObject(map[]));
    assert TryBody(timestamp, Answer(body)) == Attempt(JInt(5), Err(NotCriticalError(StatusNotUpdated)));
    assert FailureText(NotCriticalError(StatusNotUpdated)) == m;
    assert !Contains("", m);
  }
}
