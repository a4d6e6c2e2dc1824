/** `parse_status`: the translation of a homework's review status into the
    notification text, through the fixed verdict table. */
module Status {
  import opened Outcomes
  import opened Json
  import opened Errors

  const ApprovedVerdict: string := "Работа проверена: ревьюеру всё понравилось. Ура!"
  const ReviewingVerdict: string := "Работа взята на проверку ревьюером."
  const RejectedVerdict: string := "Работа проверена: у ревьюера есть замечания."

  /** HOMEWORK_VERDICTS: the three documented statuses and their texts. */
  const Verdicts: map<string, string> := map[
    "approved" := ApprovedVerdict,
    "reviewing" := ReviewingVerdict,
    "rejected" := RejectedVerdict
  ]

  const NoticeLead: string := "Изменился статус проверки работы "

  /** The notification for a homework named `name` whose verdict is
      `verdict`: the fixed lead, the name in double quotes, then the verdict. */
  function NoticeText(name: Json, verdict: string): string
  {
    NoticeLead + "\"" + Str(name) + "\". " + verdict
  }

  /** A homework `parse_status` accepts: an object with a `homework_name`
      and a `status` that is one of the documented statuses. */
  predicate Documented(homework: Json)
  {
    && homework.JObject?
    && "homework_name" in homework.fields
    && "status" in homework.fields
    && homework.fields["status"].JString?
    && homework.fields["status"].s in Verdicts
  }

  /** `parse_status(homework)`: the notification text, or the first check
      that fails. Python's `in` and `[]` are applied to whatever the API
      sent, so a list or string homework and a list or dict status raise
      Python's own TypeErrors. */
  function ParseStatus(homework: Json): (r: Result<string, Error>)
    ensures r.Ok? <==> Documented(homework)
    ensures r.Ok? ==>
              r.value == NoticeText(homework.fields["homework_name"], Verdicts[homework.fields["status"].s])
    ensures homework.JObject? && "homework_name" !in homework.fields ==> r == Err(HomeworkNameMissing)
    ensures (homework.JObject? && "homework_name" in homework.fields && "status" !in homework.fields) ==>
              r == Err(StatusMissing)
    ensures (homework.JObject? && "homework_name" in homework.fields && "status" in homework.fields
             && !homework.fields["status"].JArray? && !homework.fields["status"].JObject?
             && !Documented(homework)) ==> r == Err(UndocumentedStatus)
    ensures (homework.JObject? && "homework_name" in homework.fields && "status" in homework.fields
             && (homework.fields["status"].JArray? || homework.fields["status"].JObject?)) ==>
              r == Err(Unhashable(TypeOf(homework.fields["status"])))
    ensures (homework.JNull? || homework.JBool? || homework.JInt?) ==> r == Err(NotIterable(TypeOf(homework)))
    ensures homework.JArray? ==>
              r == Err(if JString("homework_name") in homework.items then ListIndexedByStr else HomeworkNameMissing)
    ensures homework.JString? ==>
              r == Err(if Contains(homework.s, "homework_name") then StrIndexedByStr else HomeworkNameMissing)
  {
    match homework
    case JObject(fields) =>
      if "homework_name" !in fields then Err(HomeworkNameMissing)
      else
        var name := fields["homework_name"];
        if "status" !in fields then Err(StatusMissing)
        else
          var status := fields["status"];
          if status.JArray? || status.JObject? then Err(Unhashable(TypeOf(status)))
          else if !(status.JString? && status.s in Verdicts) then Err(UndocumentedStatus)
          else Ok(NoticeText(name, Verdicts[status.s]))
    case JArray(items) =>
      if JString("homework_name") in items then Err(ListIndexedByStr) else Err(HomeworkNameMissing)
    case JString(s) =>
      if Contains(s, "homework_name") then Err(StrIndexedByStr) else Err(HomeworkNameMissing)
    case _ => Err(NotIterable(TypeOf(homework)))
  }

  predicate EndsWith(text: string, suffix: string)
  {
    |suffix| <= |text| && text[|text| - |suffix|..] == suffix
  }

  /** Reads the status back from a notification: the documented status
      whose verdict ends the text. */
  function StatusOfNotice(text: string): Option<string>
  {
    if EndsWith(text, ApprovedVerdict) then Some("approved")
    else if EndsWith(text, ReviewingVerdict) then Some("reviewing")
    else if EndsWith(text, RejectedVerdict) then Some("rejected")
    else None
  }

  lemma LastTwoChars(text: string, suffix: string)
    requires |suffix| >= 2 && EndsWith(text, suffix)
    ensures text[|text| - 1] == suffix[|suffix| - 1] && text[|text| - 2] == suffix[|suffix| - 2]
  {
  }

  /** The last two characters of each verdict tell the three apart. */
  lemma {:induction false} VerdictEnding(text: string, p: string, status: string)
    requires status in Verdicts && text == p + Verdicts[status]
    ensures EndsWith(text, Verdicts[status])
    ensures forall other :: other in Verdicts && other != status ==> !EndsWith(text, Verdicts[other])
  {
    var v := Verdicts[status];
    assert text[|text| - |v|..] == v;
    LastTwoChars(text, v);
    forall other | other in Verdicts && other != status
      ensures !EndsWith(text, Verdicts[other])
    {
      if EndsWith(text, Verdicts[other]) {
        LastTwoChars(text, Verdicts[other]);
        assert false;
      }
    }
  }

  /** Every notification names the homework and ends with exactly the
      verdict of its status, so the status can be read back from it. */
  lemma {:induction false} NoticeRoundTrip(homework: Json)
    requires ParseStatus(homework).Ok?
    ensures var text := ParseStatus(homework).value;
            var status := homework.fields["status"].s;
            && Contains(text, Str(homework.fields["homework_name"]))
            && EndsWith(text, Verdicts[status])
            && StatusOfNotice(text) == Some(status)
  {
    var name := Str(homework.fields["homework_name"]);
    var status := homework.fields["status"].s;
    var text := ParseStatus(homework).value;
    var k := |NoticeLead| + 1;
    assert text[k..k + |name|] == name;
    ContainsAt(text, name, k);
    VerdictEnding(text, NoticeLead + "\"" + name + "\". ", status);
    assert Verdicts["approved"] == ApprovedVerdict && Verdicts["reviewing"] == ReviewingVerdict;
  }

  /** For a given homework name, different statuses give different
      notifications. */
  lemma StatusesGiveDistinctNotices(h: Json, g: Json)
    requires ParseStatus(h).Ok? && ParseStatus(g).Ok?
    requires h.fields["status"] != g.fields["status"]
    ensures ParseStatus(h).value != ParseStatus(g).value
  {
    NoticeRoundTrip(h);
    NoticeRoundTrip(g);
  }
}
