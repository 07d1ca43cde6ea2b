/**
 * The pure part of the bot: the verdict table, what a fetch hands back
 * (`get_api_answer`), the response validator (`check_response`) and the
 * status formatter (`parse_status`).
 */
module Homework {
  import opened Wrappers
  import opened Json
  import opened Errors

  /** The fixed verdict for each review status the API reports. */
  const HomeworkStatuses: map<string, string> := map[
    "approved" := "Работа проверена: ревьюеру всё понравилось. Ура!",
    "reviewing" := "Работа взята на проверку ревьюером.",
    "rejected" := "Работа проверена: у ревьюера есть замечания."
  ]

  const StatusChangedText := "Изменился статус проверки работы \""

  /**
   * What one call of `requests.get(...)` followed by `.json()` came to:
   * either one of them raised (the exception's text is kept), or the server
   * answered with a status code and a JSON body.
   */
  datatype FetchOutcome =
    | Raised(text: string)
    | Answered(code: int, body: JValue)

  /** `get_api_answer`: a non-200 status is an `EndpointUnavailable` error. */
  function GetApiAnswer(fetch: FetchOutcome): (r: Result<JValue, Err>)
    ensures r.Success? <==> fetch.Answered? && fetch.code == 200
    ensures r.Success? ==> r.value == fetch.body
    ensures fetch.Answered? && fetch.code != 200 ==> r.error == EndpointUnavailable(fetch.code)
    ensures fetch.Raised? ==> r == Failure(RequestFailed(fetch.text))
  {
    match fetch
    case Raised(text) => Failure(RequestFailed(text))
    case Answered(code, body) =>
      if code != 200 then Failure(EndpointUnavailable(code)) else Success(body)
  }

  /** A response that carries at least one homework record under "homeworks". */
  predicate HasNewHomework(response: JValue) {
    && response.JObject?
    && "homeworks" in response.fields
    && response.fields["homeworks"].JArray?
    && response.fields["homeworks"].items != []
  }

  /** The most recent record: the API lists homeworks newest first. */
  function Latest(response: JValue): JValue
    requires HasNewHomework(response)
  {
    response.fields["homeworks"].items[0]
  }

  /** The five exceptions `check_response` can raise. */
  predicate IsResponseError(e: Err) {
    e in {TypeError(NotDictText), EmptyData, KeyError(NoHomeworksKeyText), HomeworkType, NoNewStatus}
  }

  /** `check_response`: validates the decoded body and picks out the latest homework. */
  function CheckResponse(response: JValue): (r: Result<JValue, Err>)
    ensures r.Success? <==> HasNewHomework(response)
    ensures r.Success? ==> r.value == Latest(response)
    ensures r.Failure? ==> IsResponseError(r.error)
  {
    if !response.JObject? then
      Failure(TypeError(NotDictText))
    else if response.fields == map[] then
      Failure(EmptyData)
    else if "homeworks" !in response.fields then
      Failure(KeyError(NoHomeworksKeyText))
    else
      var homeworks := response.fields["homeworks"];
      if !homeworks.JArray? then
        Failure(HomeworkType)
      else if homeworks.items == [] then
        Failure(NoNewStatus)
      else
        Success(homeworks.items[0])
  }

  /** Which error each malformed response gets: the guards apply in a fixed order. */
  lemma CheckResponseOrder(response: JValue)
    ensures !response.JObject? ==> CheckResponse(response) == Failure(TypeError(NotDictText))
    ensures response == JObject(map[]) ==> CheckResponse(response) == Failure(EmptyData)
    ensures response.JObject? && response.fields != map[] && "homeworks" !in response.fields
      ==> CheckResponse(response) == Failure(KeyError(NoHomeworksKeyText))
    ensures response.JObject? && "homeworks" in response.fields && !response.fields["homeworks"].JArray?
      ==> CheckResponse(response) == Failure(HomeworkType)
    ensures response.JObject? && "homeworks" in response.fields && response.fields["homeworks"] == JArray([])
      ==> CheckResponse(response) == Failure(NoNewStatus)
  {
  }

  /** Nothing but the first record decides a successful validation. */
  lemma CheckResponseOnlyLatest(a: JValue, b: JValue)
    requires HasNewHomework(a) && HasNewHomework(b)
    requires a.fields["homeworks"].items[0] == b.fields["homeworks"].items[0]
    ensures CheckResponse(a) == CheckResponse(b)
  {
  }

  /** A homework record `parse_status` turns into a message. */
  predicate IsKnownRecord(homework: JValue) {
    && homework.JObject?
    && "homework_name" in homework.fields
    && "status" in homework.fields
    && homework.fields["status"].JString?
    && homework.fields["status"].str in HomeworkStatuses
  }

  /** The notification for a record named `name` whose review status is `status`. */
  function StatusMessage(name: JValue, status: string): string
    requires status in HomeworkStatuses
  {
    StatusChangedText + PyStr(name) + "\". " + HomeworkStatuses[status]
  }

  /**
   * `parse_status`. The key test is Python's `in`, so on a list it is list
   * membership and on a string a substring test; once both keys pass on a
   * non-dict, `.get` raises. A status that is a list or dict cannot be looked
   * up in the table at all.
   */
  function ParseStatus(homework: JValue): (r: Result<string, Err>)
    ensures r.Success? <==> IsKnownRecord(homework)
    ensures r.Success? ==> r.value == StatusMessage(homework.fields["homework_name"], homework.fields["status"].str)
  {
    match homework
    case JObject(m) =>
      if "homework_name" !in m || "status" !in m then
        Failure(KeyError(MissingKeysText))
      else
        var name := m["homework_name"];
        var status := m["status"];
        if Unhashable(status) then
          Failure(TypeError("unhashable type: '" + TypeName(status) + "'"))
        else if !(status.JString? && status.str in HomeworkStatuses) then
          Failure(UnknownStatus)
        else
          Success(StatusMessage(name, status.str))
    case JArray(items) =>
      if JString("homework_name") !in items || JString("status") !in items then
        Failure(KeyError(MissingKeysText))
      else
        Failure(AttributeError("'list' object has no attribute 'get'"))
    case JString(s) =>
      if !Contains(s, "homework_name") || !Contains(s, "status") then
        Failure(KeyError(MissingKeysText))
      else
        Failure(AttributeError("'str' object has no attribute 'get'"))
    case _ =>
      Failure(TypeError("argument of type '" + TypeName(homework) + "' is not iterable"))
  }

  /** The error classes of a dict record: missing keys first, then an unknown status. */
  lemma ParseStatusErrors(homework: JValue)
    requires homework.JObject?
    ensures ("homework_name" !in homework.fields || "status" !in homework.fields)
      ==> ParseStatus(homework) == Failure(KeyError(MissingKeysText))
    ensures "homework_name" in homework.fields && "status" in homework.fields
      && !Unhashable(homework.fields["status"]) && !IsKnownRecord(homework)
      ==> ParseStatus(homework) == Failure(UnknownStatus)
  {
  }

  /** The literal case: "approved" work named "Project X", and an unknown status. */
  lemma ApprovedProjectX()
    ensures ParseStatus(JObject(map["homework_name" := JString("Project X"), "status" := JString("approved")]))
      == Success("Изменился статус проверки работы \"Project X\". " + "Работа проверена: ревьюеру всё понравилось. Ура!")
    ensures ParseStatus(JObject(map["homework_name" := JString("Project X"), "status" := JString("archived")]))
      == Failure(UnknownStatus)
  {
    var approved := JObject(map["homework_name" := JString("Project X"), "status" := JString("approved")]);
    assert IsKnownRecord(approved);
    assert StatusChangedText + "Project X" + "\". " == "Изменился статус проверки работы \"Project X\". ";
  }

  /**
   * For one name, two messages are equal exactly when the statuses are: the
   * verdict is decided by the status alone and tells the three statuses apart.
   */
  lemma StatusMessageInjective(name: JValue, s1: string, s2: string)
    requires s1 in HomeworkStatuses && s2 in HomeworkStatuses
    ensures StatusMessage(name, s1) == StatusMessage(name, s2) <==> s1 == s2
  {
  }

}
