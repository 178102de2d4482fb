/** One iteration of main's polling loop and what repeating it does. The loop
    owns two variables, the last notification text sent (STATUS) and the
    polling watermark (current_timestamp); each cycle either composes a
    notification text or fails, and the loop decides what to send. */
module Loop {
  import opened Wrappers
  import opened PyJson
  import opened Homework

  /** The watermark main starts from. */
  const StartTimestamp: int := 1635795445

  /** The text before the error description in every failure report. */
  const FailureHead: string := "Сбой в работе программы: "

  /** What the try block of one cycle produced: parse_status's text, or the
      description of the exception it raised. */
  datatype Outcome = Composed(text: string) | Failed(description: string)

  /** The try block of one cycle, once the HTTP reply is known:
      get_api_answer, then check_response, then parse_status. */
  function Cycle(reply: Reply): (o: Outcome)
    ensures ApiAnswer(reply).Err? ==> o == Failed(Describe(ApiAnswer(reply).error))
    ensures (ApiAnswer(reply).Ok? && CheckResponse(ApiAnswer(reply).value).Err?)
            ==> o == Failed(Describe(CheckResponse(ApiAnswer(reply).value).error))
    ensures o.Composed? <==> (ApiAnswer(reply).Ok? && CheckResponse(ApiAnswer(reply).value).Ok?
                              && ParseStatus(CheckResponse(ApiAnswer(reply).value).value).Ok?)
    ensures (ApiAnswer(reply).Ok? && CheckResponse(ApiAnswer(reply).value).Ok?)
            ==> (var parsed := ParseStatus(CheckResponse(ApiAnswer(reply).value).value);
                 o == if parsed.Ok? then Composed(parsed.value) else Failed(Describe(parsed.error)))
    ensures o.Composed? ==> NoticeHead <= o.text
  {
    match ApiAnswer(reply)
    case Err(e) => Failed(Describe(e))
    case Ok(payload) =>
      match CheckResponse(payload)
      case Err(e) => Failed(Describe(e))
      case Ok(homework) =>
        match ParseStatus(homework)
        case Err(e) => Failed(Describe(e))
        case Ok(text) => Composed(text)
  }

  /** A well-formed reply for an approved homework composes the exact notice. */
  lemma ApprovedScenario()
    ensures Cycle(Answered(200, Decoded(JObject(map["homeworks" := JArray([
              JObject(map["homework_name" := JString("hw1"), "status" := JString("approved")])])]))))
            == Composed("Изменился статус проверки работы \"" + "hw1" + "\". " + "Работа проверена: ревьюеру всё понравилось. Ура!")
  {
  }

  /** A 503 reply fails, and the failure report does not show the code. */
  lemma UnavailableScenario(body: Body)
    ensures Cycle(Answered(503, body)) == Failed("exceptions must derive from BaseException")
  {
  }

  /** The loop's own variables: STATUS and current_timestamp. */
  datatype State = State(status: string, timestamp: int)

  const Start: State := State("", StartTimestamp)

  /** The state after a cycle and the messages the cycle sent, in order. */
  datatype Effect = Effect(next: State, sent: seq<string>)

  /** One iteration of the loop: a new text is sent, remembered, and moves the
      watermark to the current time; a repeated text changes nothing and sends
      nothing; a failure is reported and changes nothing. */
  function Next(s: State, o: Outcome, now: int): (e: Effect)
    ensures (o.Composed? && o.text != s.status) ==> e == Effect(State(o.text, now), [o.text])
    ensures (o.Composed? && o.text == s.status) ==> e == Effect(s, [])
    ensures o.Failed? ==> e == Effect(s, [FailureHead + o.description])
  {
    match o
    case Composed(text) => if text != s.status then Effect(State(text, now), [text]) else Effect(s, [])
    case Failed(description) => Effect(s, [FailureHead + description])
  }

  /** A cycle's outcome together with the current time it ran at. */
  datatype Tick = Tick(outcome: Outcome, now: int)

  /** The loop run for the given cycles, one after another; each cycle sends
      at most one message. */
  function Run(s: State, ticks: seq<Tick>): (r: Effect)
    ensures |r.sent| <= |ticks|
    decreases |ticks|
  {
    if ticks == [] then Effect(s, [])
    else
      var before := Run(s, ticks[..|ticks| - 1]);
      var last := ticks[|ticks| - 1];
      var step := Next(before.next, last.outcome, last.now);
      Effect(step.next, before.sent + step.sent)
  }

  /** Running one more cycle is one more Next after the run so far. */
  lemma RunSnoc(s: State, ticks: seq<Tick>, t: Tick)
    ensures Run(s, ticks + [t]).next == Next(Run(s, ticks).next, t.outcome, t.now).next
    ensures Run(s, ticks + [t]).sent == Run(s, ticks).sent + Next(Run(s, ticks).next, t.outcome, t.now).sent
    ensures Requests(s, ticks + [t]) == Requests(s, ticks) + [FromDate(Run(s, ticks).next.timestamp, t.now)]
  {
  }

  /** The from_date each cycle's request carries: the watermark the cycles
      before it left, or that cycle's clock reading when the watermark is 0. */
  function Requests(s: State, ticks: seq<Tick>): (r: seq<int>)
    ensures |r| == |ticks|
    decreases |ticks|
  {
    if ticks == [] then []
    else
      var init := ticks[..|ticks| - 1];
      Requests(s, init) + [FromDate(Run(s, init).next.timestamp, ticks[|ticks| - 1].now)]
  }

  /** Request `k` depends only on the first `k` cycles. */
  lemma {:induction false} RequestAt(s: State, ticks: seq<Tick>, k: nat)
    requires k < |ticks|
    ensures |Requests(s, ticks)| == |ticks|
    ensures Requests(s, ticks)[k] == FromDate(Run(s, ticks[..k]).next.timestamp, ticks[k].now)
    decreases |ticks|
  {
    var init := ticks[..|ticks| - 1];
    if k < |init| {
      RequestAt(s, init, k);
      assert init[..k] == ticks[..k];
    }
  }

  /** The text of the last cycle that composed one, or `status` if none did. */
  function LastText(status: string, ticks: seq<Tick>): string
    decreases |ticks|
  {
    if ticks == [] then status
    else if ticks[|ticks| - 1].outcome.Composed? then ticks[|ticks| - 1].outcome.text
    else LastText(status, ticks[..|ticks| - 1])
  }

  /** STATUS always holds the text of the last cycle that composed one, and
      that text was sent at some point. */
  lemma {:induction false} RunKeepsLastText(s: State, ticks: seq<Tick>)
    ensures Run(s, ticks).next.status == LastText(s.status, ticks)
    ensures Run(s, ticks).next.status == s.status || Run(s, ticks).next.status in Run(s, ticks).sent
    decreases |ticks|
  {
    if ticks != [] {
      RunKeepsLastText(s, ticks[..|ticks| - 1]);
    }
  }

  /** The watermark only ever takes the time of a cycle that composed a text. */
  lemma {:induction false} RunWatermark(s: State, ticks: seq<Tick>)
    ensures Run(s, ticks).next.timestamp == s.timestamp
            || exists i :: 0 <= i < |ticks| && ticks[i].outcome.Composed? && Run(s, ticks).next.timestamp == ticks[i].now
    decreases |ticks|
  {
    if ticks != [] {
      var init := ticks[..|ticks| - 1];
      RunWatermark(s, init);
      if Run(s, ticks).next.timestamp != Run(s, init).next.timestamp {
        assert ticks[|ticks| - 1].outcome.Composed?;
      } else if Run(s, init).next.timestamp != s.timestamp {
        var i :| 0 <= i < |init| && init[i].outcome.Composed? && Run(s, init).next.timestamp == init[i].now;
        assert ticks[i] == init[i];
      }
    }
  }

  /** Cycles that keep composing the same text notify it at most once, on the
      first of them, and the watermark is that cycle's time. */
  lemma {:induction false} RepeatedTextNotifiesOnce(s: State, ticks: seq<Tick>, text: string)
    requires forall i :: 0 <= i < |ticks| ==> ticks[i].outcome == Composed(text)
    ensures ticks != [] ==> Run(s, ticks).next.status == text
    ensures Run(s, ticks).sent == if ticks != [] && text != s.status then [text] else []
    ensures Run(s, ticks).next.timestamp == if ticks != [] && text != s.status then ticks[0].now else s.timestamp
    decreases |ticks|
  {
    if ticks != [] {
      var init := ticks[..|ticks| - 1];
      RepeatedTextNotifiesOnce(s, init, text);
      assert ticks[|ticks| - 1].outcome == Composed(text);
      if init != [] {
        assert init[0] == ticks[0];
      }
    }
  }

  /** Failing cycles report each failure once, in order, and leave the state alone. */
  lemma {:induction false} FailuresOnlyReport(s: State, ticks: seq<Tick>)
    requires forall i :: 0 <= i < |ticks| ==> ticks[i].outcome.Failed?
    ensures Run(s, ticks).next == s
    ensures |Run(s, ticks).sent| == |ticks|
    ensures forall i :: 0 <= i < |ticks| ==>
              Run(s, ticks).sent[i] == FailureHead + ticks[i].outcome.description
    decreases |ticks|
  {
    if ticks != [] {
      var init := ticks[..|ticks| - 1];
      FailuresOnlyReport(s, init);
      forall i | 0 <= i < |ticks|
        ensures Run(s, ticks).sent[i] == FailureHead + ticks[i].outcome.description
      {
        if i < |init| {
          assert ticks[i] == init[i];
        }
      }
    }
  }

  /** The running bot: STATUS, current_timestamp, and the messages it has
      handed to Telegram so far. */
  class Bot {
    var status: string
    var currentTimestamp: int
    ghost var sent: seq<string>

    function Snapshot(): State
      reads this
    {
      State(status, currentTimestamp)
    }

    constructor ()
      ensures Snapshot() == Start && sent == []
    {
      status := "";
      currentTimestamp := StartTimestamp;
      sent := [];
    }

    /** The part of one loop iteration after the try block's outcome is known. */
    method Step(outcome: Outcome, now: int)
      modifies this
      ensures Snapshot() == Next(old(Snapshot()), outcome, now).next
      ensures sent == old(sent) + Next(old(Snapshot()), outcome, now).sent
    {
      match outcome
      case Composed(text) =>
        if text != status {
          sent := sent + [text];
          status := text;
          currentTimestamp := now;
        }
      case Failed(description) =>
        sent := sent + [FailureHead + description];
    }

    /** One loop iteration: the from_date the request carries, then the cycle's
        outcome for the reply it got, then Step. */
    method Poll(reply: Reply, now: int) returns (fromDate: int)
      modifies this
      ensures fromDate == FromDate(old(currentTimestamp), now)
      ensures Snapshot() == Next(old(Snapshot()), Cycle(reply), now).next
      ensures sent == old(sent) + Next(old(Snapshot()), Cycle(reply), now).sent
    {
      fromDate := FromDate(currentTimestamp, now);
      var outcome := Cycle(reply);
      Step(outcome, now);
    }

    /** The loop run for the given cycles, one iteration per cycle: each
        request carries FromDate of the watermark at that point, then Step. */
    method RunCycles(ticks: seq<Tick>) returns (fromDates: seq<int>)
      modifies this
      ensures Snapshot() == Run(old(Snapshot()), ticks).next
      ensures sent == old(sent) + Run(old(Snapshot()), ticks).sent
      ensures fromDates == Requests(old(Snapshot()), ticks)
    {
      ghost var start, sent0 := Snapshot(), sent;
      fromDates := [];
      var i := 0;
      while i < |ticks|
        invariant 0 <= i <= |ticks|
        invariant Snapshot() == Run(start, ticks[..i]).next
        invariant sent == sent0 + Run(start, ticks[..i]).sent
        invariant fromDates == Requests(start, ticks[..i])
      {
        var tick := ticks[i];
        fromDates := fromDates + [FromDate(currentTimestamp, tick.now)];
        Step(tick.outcome, tick.now);
        RunSnoc(start, ticks[..i], tick);
        assert ticks[..i] + [tick] == ticks[..i + 1];
        i := i + 1;
      }
      assert ticks[..|ticks|] == ticks;
    }
  }
}
