/**
 * `check_tokens`: the three settings read from the environment must all be
 * set. A setting is an `Option`: `None` when the variable is absent. Only
 * absence fails the check; an empty value passes it.
 */
module Tokens {
  import opened Wrappers
  import opened Json

  datatype Setting = PracticumToken | TelegramToken | TelegramChatId

  /** The outcome of the check and the setting it reports as missing, if any. */
  datatype TokenReport = TokenReport(ok: bool, missing: Option<Setting>) {
    /** The critical lines logged on the way. */
    function Logged(): seq<string> {
      if missing.Some? then [MissingText(missing.value)] else []
    }
  }

  /** The name of the environment variable that holds each setting. */
  function EnvName(s: Setting): string {
    match s
    case PracticumToken => "PRACTICUM_TOKEN"
    case TelegramToken => "TELEGRAM_TOKEN"
    case TelegramChatId => "TELEGRAM_CHAT_ID"
  }

  const MissingPrefix := "Отсутствует переменная окружения: "
  const StoppedText := ". Программа принудительно остановлена."

  /** The critical line logged for a missing setting: it names that setting's variable. */
  function MissingText(s: Setting): (line: string)
    ensures MissingPrefix <= line
    ensures |StoppedText| <= |line| && line[|line| - |StoppedText|..] == StoppedText
    ensures exists i :: OccursAt(line, EnvName(s), i)
  {
    var shown := if s == PracticumToken then "\"" + EnvName(s) + "\"" else EnvName(s);
    var text := MissingPrefix + shown + StoppedText;
    var at := if s == PracticumToken then |MissingPrefix| + 1 else |MissingPrefix|;
    assert text[at..at + |EnvName(s)|] == EnvName(s);
    assert OccursAt(text, EnvName(s), at);
    assert text[|text| - |StoppedText|..] == StoppedText;
    text
  }

  predicate AllSet(practicum: Option<string>, telegram: Option<string>, chatId: Option<string>) {
    practicum.Some? && telegram.Some? && chatId.Some?
  }

  /**
   * The settings are looked at in the order PRACTICUM_TOKEN, TELEGRAM_TOKEN,
   * TELEGRAM_CHAT_ID, and the first missing one ends the check, so at most one
   * setting is reported.
   */
  function CheckTokens(practicum: Option<string>, telegram: Option<string>, chatId: Option<string>): (r: TokenReport)
    ensures r.ok <==> AllSet(practicum, telegram, chatId)
    ensures r.ok <==> r.missing.None?
    ensures r.missing.Some? ==> Value(r.missing.value, practicum, telegram, chatId).None?
  {
    if practicum.None? then
      TokenReport(false, Some(PracticumToken))
    else if telegram.None? then
      TokenReport(false, Some(TelegramToken))
    else if chatId.None? then
      TokenReport(false, Some(TelegramChatId))
    else
      TokenReport(true, None)
  }

  /** The position of each setting in the order the check visits them. */
  function Rank(s: Setting): nat {
    match s
    case PracticumToken => 0
    case TelegramToken => 1
    case TelegramChatId => 2
  }

  function Value(s: Setting, practicum: Option<string>, telegram: Option<string>, chatId: Option<string>): Option<string> {
    match s
    case PracticumToken => practicum
    case TelegramToken => telegram
    case TelegramChatId => chatId
  }

  /**
   * When `s` is missing and every setting checked before it is present, the
   * check fails and its one critical line names `s`.
   */
  lemma ReportsFirstMissing(s: Setting, practicum: Option<string>, telegram: Option<string>, chatId: Option<string>)
    requires Value(s, practicum, telegram, chatId).None?
    requires forall t: Setting {:trigger Value(t, practicum, telegram, chatId)} :: Rank(t) < Rank(s) ==> Value(t, practicum, telegram, chatId).Some?
    ensures CheckTokens(practicum, telegram, chatId) == TokenReport(false, Some(s))
    ensures CheckTokens(practicum, telegram, chatId).Logged() == [MissingText(s)]
  {
  }

  /** The test is on absence only: empty values pass. */
  lemma EmptyValuesPass()
    ensures CheckTokens(Some(""), Some(""), Some("")).ok
  {
  }
}
