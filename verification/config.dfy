/** `check_tokens`: the preflight that every required setting is present. */
module Config {
  import opened Outcomes

  /** 1 when a setting is absent (`None`), 0 otherwise; an empty string
      counts as present. */
  function Absent(value: Option<string>): (n: nat)
    ensures n <= 1 && (n == 1 <==> value.None?)
  {
    if value.None? then 1 else 0
  }

  /** The number of absent settings among named settings. */
  function CountAbsent(settings: seq<(string, Option<string>)>): nat
  {
    if settings == [] then 0 else Absent(settings[0].1) + CountAbsent(settings[1..])
  }

  /** Walks the three settings in order, counting the absent ones, and
      reports whether the bot must stop: exactly when one is absent. */
  method CheckTokens(practicumToken: Option<string>, telegramToken: Option<string>,
                     telegramChatId: Option<string>)
    returns (noneCount: nat, stop: bool)
    ensures noneCount == Absent(practicumToken) + Absent(telegramToken) + Absent(telegramChatId)
    ensures stop <==> practicumToken.None? || telegramToken.None? || telegramChatId.None?
  {
    var settings := [("PRACTICUM_TOKEN", practicumToken),
                     ("TELEGRAM_TOKEN", telegramToken),
                     ("TELEGRAM_CHAT_ID", telegramChatId)];
    assert CountAbsent(settings[2..]) == Absent(telegramChatId);
    noneCount := 0;
    var i := 0;
    while i < |settings|
      invariant 0 <= i <= |settings|
      invariant noneCount + CountAbsent(settings[i..]) == CountAbsent(settings)
    {
      assert settings[i..][1..] == settings[i + 1..];
      if settings[i].1.None? {
        noneCount := noneCount + 1;
      }
      i := i + 1;
    }
    stop := noneCount != 0;
  }
}
