/**
 * The exceptions the bot raises or meets, one constructor per kind, and the
 * text `str(error)` gives each of them (the text a failure notice quotes).
 * The custom classes live in exceptions.py, which is not part of this model;
 * each is taken to be a plain `Exception` subclass whose text is its message.
 */
module Errors {
  import opened Json

  datatype Err =
    | TypeError(text: string)          // built-in TypeError with its message
    | EmptyData                        // exceptions.EmptyDataExc
    | KeyError(text: string)           // built-in KeyError with its message
    | HomeworkType                     // exceptions.HomeworkTypeError
    | NoNewStatus                      // exceptions.NoNewStatusExc, raised without a message
    | UnknownStatus                    // exceptions.UnknownStatusExc
    | AttributeError(text: string)     // built-in AttributeError, from `.get` on a non-dict
    | EndpointUnavailable(code: int)   // exceptions.EndpointUnavaliableExc, with the HTTP status code
    | RequestFailed(text: string)      // whatever `requests.get` or `.json()` raised, with its text
    | NoToken                          // exceptions.NoTokenException

  const NotDictText := "Данные, переданные API, не являются словарем."
  const EmptyDataText := "В словаре, переданном API, нет данных."
  const NoHomeworksKeyText := "В словаре, переданном API отсутствует ключ \"homeworks\"."
  const HomeworkTypeText := "По ключу \"homeworks\" не найден список."
  const MissingKeysText := "В словаре домашней работы отсутствуют нобходимые ключи."
  const UnknownStatusText := "Неизвестный статус работы."
  const EndpointText := "Эндпоинт [https://practicum.yandex.ru/api/user_api/homework_statuses/] недоступен. Код ответа API:  "
  const NoTokenText := "Одна или более переменных окружения отсуствуют."

  /**
   * `str(error)`. A KeyError prints the repr of its argument, so its text is
   * quoted; the bot's own KeyError messages hold no single quote, so the repr
   * is the message between single quotes.
   */
  function ErrorText(e: Err): (s: string)
    ensures e.KeyError? ==> |s| == |e.text| + 2 && s[0] == '\'' == s[|s| - 1] && s[1..|s| - 1] == e.text
    ensures e.EndpointUnavailable? ==> EndpointText <= s && IntValue(s[|EndpointText|..]) == e.code
    ensures e.EndpointUnavailable? ==> s == EndpointText + IntToString(e.code)
    ensures e.EmptyData? ==> s == EmptyDataText
    ensures e.HomeworkType? ==> s == HomeworkTypeText
    ensures e.UnknownStatus? ==> s == UnknownStatusText
    ensures e.NoToken? ==> s == NoTokenText
    ensures e.NoNewStatus? ==> s == ""
    ensures e.TypeError? || e.AttributeError? || e.RequestFailed? ==> s == e.text
  {
    match e
    case TypeError(t) => t
    case EmptyData => EmptyDataText
    case KeyError(t) => "'" + t + "'"
    case HomeworkType => HomeworkTypeText
    case NoNewStatus => ""
    case UnknownStatus => UnknownStatusText
    case AttributeError(t) => t
    case EndpointUnavailable(code) =>
      var digits := IntToString(code);
      assert (EndpointText + digits)[|EndpointText|..] == digits;
      EndpointText + digits
    case RequestFailed(t) => t
    case NoToken => NoTokenText
  }
}
