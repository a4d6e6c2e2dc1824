/** Every failure one poll cycle can raise, and `str(error)` for each: the
    text the loop compares to suppress repeated notifications. */
module Errors {
  import opened Json

  const Endpoint: string := "https://practicum.yandex.ru/api/user_api/homework_statuses/"

  /** The prefix the loop puts before `str(error)` in an error notification. */
  const FailurePrefix: string := "Сбой в работе программы: "

  datatype Error =
    // get_api_answer
    | EndpointUnreachable            // the request itself raised
    | BadFromDate                    // HTTP 400
    | BadToken                       // HTTP 401
    | UnexpectedStatus(code: int)    // any other status but 200
    // check_response
    | ResponseNotDict(got: PyType)   // TypeError
    | HomeworksMissing               // KeyError
    | HomeworksNotList(got: PyType)  // TypeError
    | CurrentDateMissing             // KeyError
    // parse_status
    | HomeworkNameMissing            // KeyError
    | StatusMissing                  // KeyError
    | UndocumentedStatus             // Exception
    // TypeErrors Python itself raises inside parse_status
    | NotIterable(got: PyType)       // `key in x` on None, a bool or an int
    | ListIndexedByStr               // `x['key']` on a list
    | StrIndexedByStr                // `x['key']` on a str
    | Unhashable(got: PyType)        // `x in dict` with a list or dict `x`

  /** `str(KeyError(m))` is the repr of `m`: for the messages used here,
      which hold no `'`, no backslash and no unprintable character, that is
      `m` in single quotes. */
  function KeyErrorText(m: string): (s: string)
    ensures |s| == |m| + 2 && s[0] == '\'' && s[|s| - 1] == '\''
    ensures s[1..|s| - 1] == m
  {
    "'" + m + "'"
  }

  const UnexpectedStatusLead: string :=
    FailurePrefix + "Эндпоинт " + Endpoint + " недоступен. Код ответа API: "

  /** `str(error)` for each failure. */
  function ErrorText(e: Error): string
  {
    match e
    case EndpointUnreachable => "Эндпоинт " + Endpoint + " недоступен."
    case BadFromDate => "Неверный формат from_date."
    case BadToken => "Недействительный или некорректный токен PRACTICUM_TOKEN."
    case UnexpectedStatus(code) => UnexpectedStatusLead + IntToDecimal(code) + "."
    case ResponseNotDict(got) =>
      "Ожидаемый тип данных в ответе API - dict, пришедший тип данных - " + ClassRepr(got) + "."
    case HomeworksMissing => KeyErrorText("В ответе API отсутствует ключ \"homeworks\".")
    case HomeworksNotList(got) =>
      "В ответе API под ключом \"homeworks\" ожидаются данные типа list, пришедший тип данных - "
      + ClassRepr(got)
    case CurrentDateMissing => KeyErrorText("В ответе API отсутствует ключ \"current_date\".")
    case HomeworkNameMissing => KeyErrorText("Отсутствует ключ \"homework_name\".")
    case StatusMissing => KeyErrorText("Отсутствует ключ \"status\".")
    case UndocumentedStatus => "API возвращает недокументированный статус домашней работы."
    case NotIterable(got) => "argument of type '" + TypeName(got) + "' is not iterable"
    case ListIndexedByStr => "list indices must be integers or slices, not str"
    case StrIndexedByStr => "string indices must be integers, not 'str'"
    case Unhashable(got) => "unhashable type: '" + TypeName(got) + "'"
  }

  /** No failure renders as the empty string, so the first failure after
      start-up, when the remembered error is still '', is always reported. */
  lemma ErrorTextNonEmpty(e: Error)
    ensures ErrorText(e) != ""
  {
  }

  /** An unexpected status code is named in the error text: the text is the
      fixed lead, the code in decimal, and a full stop. */
  lemma UnexpectedStatusNamesCode(code: int)
    ensures Contains(ErrorText(UnexpectedStatus(code)), IntToDecimal(code))
  {
    var t := ErrorText(UnexpectedStatus(code));
    var d := IntToDecimal(code);
    var k := |UnexpectedStatusLead|;
    assert t[k..k + |d|] == d;
    ContainsAt(t, d, k);
  }

  /** Two different unexpected status codes give different texts, so the
      loop reports a change of status code even while both are failures. */
  lemma {:induction false} UnexpectedStatusTextsDistinct(a: int, b: int)
    requires a != b
    ensures ErrorText(UnexpectedStatus(a)) != ErrorText(UnexpectedStatus(b))
  {
    var ta, tb := ErrorText(UnexpectedStatus(a)), ErrorText(UnexpectedStatus(b));
    var k := |UnexpectedStatusLead|;
    if ta == tb {
      assert ta[k..|ta| - 1] == IntToDecimal(a);
      assert tb[k..|tb| - 1] == IntToDecimal(b);
      IntToDecimalInjective(a, b);
    }
  }
}
