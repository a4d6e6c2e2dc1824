/** The body of `main`'s endless loop: fetch, validate, translate and
    notify, with the `timestamp` cursor and the `current_error` memory that
    keeps a failure from being reported twice in a row. */
module PollLoop {
  import opened Outcomes
  import opened Json
  import opened Errors
  import opened Api
  import opened Status

  /** The loop's two variables: the `from_date` cursor (whatever the last
      successful answer held under `current_date`) and the text of the last
      reported failure. */
  datatype PollState = PollState(timestamp: Json, currentError: string)

  /** The state `main` starts the loop in. */
  const Start: PollState := PollState(JInt(0), "")

  /** What the `try` block yields when nothing in it raises: the new cursor
      and the status notification to send, if any. */
  datatype Progress = Progress(cursor: Json, notice: Option<string>)

  /** The head of the homework list, when `check_response` accepts `body`. */
  function LatestHomework(body: Json): Option<Json>
    requires WellFormed(body)
  {
    CheckResponse(body).value
  }

  /** The `try` block of one iteration once the request has produced
      `outcome`: `get_api_answer`, `check_response`, `parse_status` for a
      truthy homework, then the new cursor. */
  function TryCycle(outcome: FetchOutcome): (r: Result<Progress, Error>)
    ensures r.Ok? <==>
              && outcome.Answered? && outcome.statusCode == Ok200 && WellFormed(outcome.body)
              && (var h := LatestHomework(outcome.body); h.Some? && Truthy(h.value) ==> Documented(h.value))
    ensures r.Ok? ==> r.value.cursor == outcome.body.fields["current_date"]
    ensures r.Ok? ==>
              var h := LatestHomework(outcome.body);
              r.value.notice == if h.Some? && Truthy(h.value) then Some(ParseStatus(h.value).value) else None
    ensures GetApiAnswer(outcome).Err? ==> r == Err(GetApiAnswer(outcome).error)
    ensures GetApiAnswer(outcome).Ok? && !WellFormed(outcome.body) ==> r == Err(CheckResponse(outcome.body).error)
    ensures (GetApiAnswer(outcome).Ok? && WellFormed(outcome.body)
             && (var h := LatestHomework(outcome.body); h.Some? && Truthy(h.value) && !Documented(h.value))) ==>
              r == Err(ParseStatus(LatestHomework(outcome.body).value).error)
  {
    var answer := GetApiAnswer(outcome);
    if answer.Err? then Err(answer.error)
    else
      var response := answer.value;
      var homework := CheckResponse(response);
      if homework.Err? then Err(homework.error)
      else
        var cursor := response.fields["current_date"];
        if homework.value.Some? && Truthy(homework.value.value) then
          var message := ParseStatus(homework.value.value);
          if message.Err? then Err(message.error)
          else Ok(Progress(cursor, Some(message.value)))
        else Ok(Progress(cursor, None))
  }

  /** One iteration: the state after it and the message it hands to the
      chat, if any. */
  datatype Cycle = Cycle(next: PollState, sent: Option<string>)

  /** One iteration of the loop from state `s`. On success the cursor moves
      to the answer's `current_date` and the remembered failure is kept; on
      failure the cursor stays and the failure's text is remembered, and it
      is reported exactly when it differs from the one remembered before. */
  function RunCycle(s: PollState, outcome: FetchOutcome): (c: Cycle)
    ensures TryCycle(outcome).Ok? ==>
              && c.next.timestamp == TryCycle(outcome).value.cursor
              && c.next.currentError == s.currentError
              && c.sent == TryCycle(outcome).value.notice
    ensures TryCycle(outcome).Err? ==>
              var text := ErrorText(TryCycle(outcome).error);
              && c.next.timestamp == s.timestamp
              && c.next.currentError == text
              && (c.sent.Some? <==> s.currentError != text)
              && (c.sent.Some? ==> c.sent.value == FailurePrefix + text)
  {
    match TryCycle(outcome)
    case Ok(progress) => Cycle(PollState(progress.cursor, s.currentError), progress.notice)
    case Err(error) =>
      var text := ErrorText(error);
      if s.currentError != text then Cycle(PollState(s.timestamp, text), Some(FailurePrefix + text))
      else Cycle(PollState(s.timestamp, s.currentError), None)
  }

  function OptionToSeq(o: Option<string>): (s: seq<string>)
    ensures |s| <= 1
  {
    if o.Some? then [o.value] else []
  }

  /** A finite run of the loop: the final state and every message sent. */
  datatype Trace = Trace(state: PollState, sent: seq<string>)

  /** Runs one iteration per outcome, in order, from state `s`. At most one
      message goes out per iteration. */
  function Run(s: PollState, outcomes: seq<FetchOutcome>): (t: Trace)
    ensures |t.sent| <= |outcomes|
    ensures t.state.currentError == s.currentError || FailurePrefix + t.state.currentError in t.sent
    decreases |outcomes|
  {
    if outcomes == [] then Trace(s, [])
    else
      var c := RunCycle(s, outcomes[0]);
      var rest := Run(c.next, outcomes[1..]);
      Trace(rest.state, OptionToSeq(c.sent) + rest.sent)
  }

  /** Every outcome in `outcomes` makes the `try` block fail with a failure
      whose text is `text`. */
  predicate AllFailWith(outcomes: seq<FetchOutcome>, text: string)
  {
    forall i :: 0 <= i < |outcomes| ==>
      TryCycle(outcomes[i]).Err? && ErrorText(TryCycle(outcomes[i]).error) == text
  }

  /** A failure that repeats with the same text is reported once at most:
      once if it differs from the remembered failure, never otherwise. The
      cursor does not move. */
  lemma {:induction false} RepeatedFailureReportedOnce(s: PollState, outcomes: seq<FetchOutcome>, text: string)
    requires outcomes != [] && AllFailWith(outcomes, text)
    ensures Run(s, outcomes).state == PollState(s.timestamp, text)
    ensures Run(s, outcomes).sent == if s.currentError == text then [] else [FailurePrefix + text]
    decreases |outcomes|
  {
    var c := RunCycle(s, outcomes[0]);
    assert c.next == PollState(s.timestamp, text);
    if |outcomes| > 1 {
      assert AllFailWith(outcomes[1..], text) by {
        forall i | 0 <= i < |outcomes[1..]|
          ensures TryCycle(outcomes[1..][i]).Err? && ErrorText(TryCycle(outcomes[1..][i]).error) == text
        {
          assert outcomes[1..][i] == outcomes[i + 1];
        }
      }
      RepeatedFailureReportedOnce(c.next, outcomes[1..], text);
    }
  }

  /** Failing iterations, whatever their failures, never move the cursor. */
  lemma {:induction false} FailuresKeepCursor(s: PollState, outcomes: seq<FetchOutcome>)
    requires forall i :: 0 <= i < |outcomes| ==> TryCycle(outcomes[i]).Err?
    ensures Run(s, outcomes).state.timestamp == s.timestamp
    decreases |outcomes|
  {
    if outcomes != [] {
      var c := RunCycle(s, outcomes[0]);
      assert forall i :: 0 <= i < |outcomes[1..]| ==> outcomes[1..][i] == outcomes[i + 1];
      FailuresKeepCursor(c.next, outcomes[1..]);
    }
  }

  /** The first failure after start-up is always reported: the remembered
      text starts out empty and no failure has an empty text. */
  lemma FirstFailureReported(outcome: FetchOutcome)
    requires TryCycle(outcome).Err?
    ensures RunCycle(Start, outcome).sent == Some(FailurePrefix + ErrorText(TryCycle(outcome).error))
  {
    ErrorTextNonEmpty(TryCycle(outcome).error);
  }

  /** Two failures in a row with different texts are both reported (the
      first unless it is the one already remembered). */
  lemma DistinctFailuresBothReported(s: PollState, first: FetchOutcome, second: FetchOutcome)
    requires TryCycle(first).Err? && TryCycle(second).Err?
    requires ErrorText(TryCycle(first).error) != ErrorText(TryCycle(second).error)
    ensures Run(s, [first, second]).sent ==
              (if s.currentError == ErrorText(TryCycle(first).error) then []
               else [FailurePrefix + ErrorText(TryCycle(first).error)])
              + [FailurePrefix + ErrorText(TryCycle(second).error)]
  {
    var c := RunCycle(s, first);
    assert [first, second][1..] == [second];
    assert Run(c.next, [second]).sent == OptionToSeq(RunCycle(c.next, second).sent);
  }

  /** A success does not clear the remembered failure: the same failure
      before and after a successful iteration is reported only the first
      time. */
  lemma SuccessKeepsSuppression(s: PollState, failing: FetchOutcome, succeeding: FetchOutcome,
                                failingAgain: FetchOutcome)
    requires TryCycle(failing).Err? && TryCycle(succeeding).Ok? && TryCycle(failingAgain).Err?
    requires ErrorText(TryCycle(failing).error) == ErrorText(TryCycle(failingAgain).error)
    ensures RunCycle(RunCycle(RunCycle(s, failing).next, succeeding).next, failingAgain).sent == None
  {
  }

  /** The state after running `outcomes` and then one more outcome. */
  lemma {:induction false} RunSnoc(s: PollState, outcomes: seq<FetchOutcome>, last: FetchOutcome)
    ensures Run(s, outcomes + [last]).state == RunCycle(Run(s, outcomes).state, last).next
    decreases |outcomes|
  {
    if outcomes == [] {
      assert [] + [last] == [last];
    } else {
      assert (outcomes + [last])[1..] == outcomes[1..] + [last];
      RunSnoc(RunCycle(s, outcomes[0]).next, outcomes[1..], last);
    }
  }

  /** The messages sent by running `outcomes` and then one more outcome. */
  lemma {:induction false} RunSnocSent(s: PollState, outcomes: seq<FetchOutcome>, last: FetchOutcome)
    ensures Run(s, outcomes + [last]).sent
         == Run(s, outcomes).sent + OptionToSeq(RunCycle(Run(s, outcomes).state, last).sent)
    decreases |outcomes|
  {
    if outcomes == [] {
      assert [] + [last] == [last];
    } else {
      var whole := outcomes + [last];
      assert whole[0] == outcomes[0] && whole[1..] == outcomes[1..] + [last];
      var c := RunCycle(s, outcomes[0]);
      RunSnocSent(c.next, outcomes[1..], last);
      RunUnfold(s, whole);
      RunUnfold(s, outcomes);
    }
  }

  /** One step of `Run`'s definition, stated for a non-empty run. */
  lemma RunUnfold(s: PollState, outcomes: seq<FetchOutcome>)
    requires outcomes != []
    ensures Run(s, outcomes).sent
         == OptionToSeq(RunCycle(s, outcomes[0]).sent) + Run(RunCycle(s, outcomes[0]).next, outcomes[1..]).sent
  {
  }

  /** The cursor a run should end with, read off the outcomes alone: the
      `current_date` of the last successful iteration, or the starting
      cursor when none succeeded. */
  function LastSuccessCursor(start: Json, outcomes: seq<FetchOutcome>): Json
    decreases |outcomes|
  {
    if outcomes == [] then start
    else
      var last := outcomes[|outcomes| - 1];
      if TryCycle(last).Ok? then last.body.fields["current_date"]
      else LastSuccessCursor(start, outcomes[..|outcomes| - 1])
  }

  /** After any run the cursor is the `current_date` of the last successful
      iteration: failures never roll it back or move it. */
  lemma {:induction false} CursorIsLastSuccess(s: PollState, outcomes: seq<FetchOutcome>)
    ensures Run(s, outcomes).state.timestamp == LastSuccessCursor(s.timestamp, outcomes)
    decreases |outcomes|
  {
    if outcomes != [] {
      var init := outcomes[..|outcomes| - 1];
      var last := outcomes[|outcomes| - 1];
      assert outcomes == init + [last];
      RunSnoc(s, init, last);
      CursorIsLastSuccess(s, init);
    }
  }

  /** An answer with status 200 holding `homeworks` and `current_date`. */
  function Answer(homeworks: seq<Json>, currentDate: int): FetchOutcome
  {
    Answered(Ok200, JObject(map["homeworks" := JArray(homeworks), "current_date" := JInt(currentDate)]))
  }

  function Homework(name: string, status: string): Json
  {
    JObject(map["homework_name" := JString(name), "status" := JString(status)])
  }

  /** An empty homework list: nothing is sent and the cursor advances. */
  lemma NoNewHomeworkScenario(s: PollState)
    ensures RunCycle(s, Answer([], 1000)) == Cycle(PollState(JInt(1000), s.currentError), None)
  {
  }

  /** An approved homework: one notification naming it with the approved
      verdict, and the cursor advances. */
  lemma ApprovedHomeworkScenario(s: PollState)
    ensures RunCycle(s, Answer([Homework("hw1", "approved")], 1000))
         == Cycle(PollState(JInt(1000), s.currentError),
                  Some(NoticeText(JString("hw1"), ApprovedVerdict)))
  {
    var h := Homework("hw1", "approved");
    var o := Answer([h], 1000);
    assert "homework_name" in h.fields;
    assert WellFormed(o.body) && LatestHomework(o.body) == Some(h) && Truthy(h);
    assert Documented(h);
    assert ParseStatus(h).value == NoticeText(JString("hw1"), ApprovedVerdict);
    assert TryCycle(o) == Ok(Progress(JInt(1000), Some(NoticeText(JString("hw1"), ApprovedVerdict))));
  }

  /** An undocumented status: the failure is reported from the start state
      and the cursor stays where it was. */
  lemma UndocumentedStatusScenario()
    ensures RunCycle(Start, Answer([Homework("hw1", "weird")], 1000))
         == Cycle(PollState(JInt(0), ErrorText(UndocumentedStatus)),
                  Some(FailurePrefix + ErrorText(UndocumentedStatus)))
  {
    var h := Homework("hw1", "weird");
    assert !Documented(h);
  }

  /** Two 401 answers in a row from the start state: one report. */
  lemma RepeatedUnauthorizedScenario(body: Json)
    ensures Run(Start, [Answered(Unauthorized401, body), Answered(Unauthorized401, body)]).sent
         == [FailurePrefix + ErrorText(BadToken)]
  {
    var outcomes := [Answered(Unauthorized401, body), Answered(Unauthorized401, body)];
    ErrorTextNonEmpty(BadToken);
    RepeatedFailureReportedOnce(Start, outcomes, ErrorText(BadToken));
  }

  /** A delivery attempt: the text handed to the chat and whether the
      chat accepted it. */
  datatype Delivery = Delivery(text: string, delivered: bool)

  function Attempts(message: Option<string>, delivered: bool): seq<Delivery>
  {
    if message.Some? then [Delivery(message.value, delivered)] else []
  }

  /** The texts of a log of delivery attempts, in order. */
  function Texts(log: seq<Delivery>): (texts: seq<string>)
    ensures |texts| == |log|
    ensures forall i :: 0 <= i < |log| ==> texts[i] == log[i].text
  {
    seq(|log|, i requires 0 <= i < |log| => log[i].text)
  }

  lemma TextsAppend(log: seq<Delivery>, message: Option<string>, delivered: bool)
    ensures Texts(log + Attempts(message, delivered)) == Texts(log) + OptionToSeq(message)
  {
  }

  /** One more iteration extends a run: its state and its messages. */
  lemma StepExtendsRun(start: PollState, done: seq<FetchOutcome>, outcome: FetchOutcome,
                       log: seq<Delivery>, before: seq<Delivery>, delivered: bool)
    requires Texts(before) == Texts(log) + Run(start, done).sent
    ensures RunCycle(Run(start, done).state, outcome).next == Run(start, done + [outcome]).state
    ensures Texts(before + Attempts(RunCycle(Run(start, done).state, outcome).sent, delivered))
         == Texts(log) + Run(start, done + [outcome]).sent
  {
    RunSnoc(start, done, outcome);
    RunSnocSent(start, done, outcome);
    TextsAppend(before, RunCycle(Run(start, done).state, outcome).sent, delivered);
  }

  /** The running bot: the two loop variables, and the log of messages
      handed to the chat. */
  class Bot {
    var timestamp: Json
    var currentError: string
    ghost var sent: seq<Delivery>

    /** The loop variables as `main` sets them before the first iteration. */
    constructor ()
      ensures timestamp == JInt(0) && currentError == "" && sent == []
    {
      timestamp := JInt(0);
      currentError := "";
      sent := [];
    }

    function State(): PollState
      reads this
    {
      PollState(timestamp, currentError)
    }

    /** `send_message`: hands `text` to the chat; a delivery failure is
        swallowed, so nothing but the log changes either way. */
    method SendMessage(text: string, delivered: bool)
      modifies this`sent
      ensures sent == old(sent) + [Delivery(text, delivered)]
    {
      sent := sent + [Delivery(text, delivered)];
    }

    /** One pass of the loop body, with the request's outcome and the
        chat's delivery outcome given. */
    method Step(outcome: FetchOutcome, delivered: bool)
      modifies this
      ensures State() == RunCycle(old(State()), outcome).next
      ensures sent == old(sent) + Attempts(RunCycle(old(State()), outcome).sent, delivered)
    {
      var failure: Option<Error> := None;
      // try:
      var answer := GetApiAnswer(outcome);
      if answer.Err? {
        failure := Some(answer.error);
      } else {
        var response := answer.value;
        var homework := CheckResponse(response);
        if homework.Err? {
          failure := Some(homework.error);
        } else {
          if homework.value.Some? && Truthy(homework.value.value) {
            var message := ParseStatus(homework.value.value);
            if message.Err? {
              failure := Some(message.error);
            } else {
              SendMessage(message.value, delivered);
            }
          }
          if failure.None? {
            timestamp := response.fields["current_date"];
          }
        }
      }
      // except:
      if failure.Some? {
        var text := ErrorText(failure.value);
        if currentError != text {
          currentError := text;
          SendMessage(FailurePrefix + text, delivered);
        }
      }
    }

    /** Runs the loop body once per outcome, in order; `deliveries[i]` is
        the chat's answer to the message of iteration `i`, if it sends one.
        The state and the texts handed to the chat are those of `Run`. */
    method RunSteps(outcomes: seq<FetchOutcome>, deliveries: seq<bool>)
      requires |deliveries| == |outcomes|
      modifies this
      ensures State() == Run(old(State()), outcomes).state
      ensures Texts(sent) == Texts(old(sent)) + Run(old(State()), outcomes).sent
    {
      ghost var start, log := State(), sent;
      var i := 0;
      while i < |outcomes|
        invariant 0 <= i <= |outcomes|
        invariant State() == Run(start, outcomes[..i]).state
        invariant Texts(sent) == Texts(log) + Run(start, outcomes[..i]).sent
      {
        ghost var before := sent;
        Step(outcomes[i], deliveries[i]);
        StepExtendsRun(start, outcomes[..i], outcomes[i], log, before, deliveries[i]);
        assert outcomes[..i + 1] == outcomes[..i] + [outcomes[i]];
        i := i + 1;
      }
      assert outcomes[..i] == outcomes;
    }
  }
}
