/**
 * `main`: the start-up check and the polling loop. The loop's state is the
 * cursor `current_timestamp` and the suppression flag `error_msg_sent`; each
 * pass fetches, validates and formats, then decides what to send. Sending is
 * recorded in a ghost log; the clock is an input of each pass.
 */
module Bot {
  import opened Wrappers
  import opened Errors
  import opened Homework
  import opened Tokens

  const FailurePrefix := "Сбой в работе программы: "

  /** The notice sent for a failed pass: the prefix, then `str` of the error. */
  function FailureNotice(e: Err): (s: string)
    ensures FailurePrefix <= s && s[|FailurePrefix|..] == ErrorText(e)
  {
    var text := FailurePrefix + ErrorText(e);
    assert text[|FailurePrefix|..] == ErrorText(e);
    text
  }

  datatype LoopState = LoopState(cursor: int, errorSent: bool)

  /** What the world supplies to one pass: the fetch's outcome and the clock's reading. */
  datatype Tick = Tick(fetch: FetchOutcome, now: int)

  /** The state after one pass and the message it hands to `send_message`, if any. */
  datatype Iteration = Iteration(next: LoopState, notice: Option<string>)

  /** The state after several passes and every message sent on the way, in order. */
  datatype Trace = Trace(final: LoopState, sent: seq<string>)

  /** The `try` block of one pass: fetch, then validate, then format. */
  function Evaluate(fetch: FetchOutcome): (r: Result<string, Err>)
    ensures r.Success? <==> GetApiAnswer(fetch).Success? && HasNewHomework(fetch.body) && IsKnownRecord(Latest(fetch.body))
    ensures r.Success? ==> r.value == ParseStatus(Latest(fetch.body)).value
  {
    var response :- GetApiAnswer(fetch);
    var homework :- CheckResponse(response);
    ParseStatus(homework)
  }

  /** A pass is quiet exactly when the answer holds an empty "homeworks" list. */
  lemma QuietExactly(fetch: FetchOutcome)
    ensures Evaluate(fetch) == Failure(NoNewStatus) <==>
      && fetch.Answered? && fetch.code == 200
      && fetch.body.JObject? && "homeworks" in fetch.body.fields
      && fetch.body.fields["homeworks"] == Json.JArray([])
  {
  }

  /** `parse_status` never raises the "no new status" exception. */
  lemma ParseStatusNeverQuiet(homework: Json.JValue)
    ensures ParseStatus(homework) != Failure(NoNewStatus)
  {
  }

  /**
   * What the loop body sees of one pass: whether the fetch returned (the
   * cursor is moved as soon as it does, before anything is validated), what
   * the `try` block came to, and the clock reading.
   */
  datatype Pass = Pass(fetched: bool, outcome: Result<string, Err>, now: int)

  function Observe(tick: Tick): (p: Pass)
    ensures p.fetched <==> GetApiAnswer(tick.fetch).Success?
    ensures !p.fetched ==> p.outcome == Failure(GetApiAnswer(tick.fetch).error)
    ensures p.now == tick.now
  {
    Pass(GetApiAnswer(tick.fetch).Success?, Evaluate(tick.fetch), tick.now)
  }

  /** The pass ends in the generic `except Exception` handler. */
  predicate Failing(p: Pass) {
    p.outcome.Failure? && p.outcome.error != NoNewStatus
  }

  /** The pass finds a changed status and formats a message for it. */
  predicate Changed(p: Pass) {
    p.outcome.Success?
  }

  function Sent(notice: Option<string>): seq<string> {
    if notice.Some? then [notice.value] else []
  }

  /** One pass of the `while True` body, from state `s`. */
  function Next(s: LoopState, p: Pass): (r: Iteration)
    ensures r.next.cursor == (if p.fetched then p.now else s.cursor)
    ensures r.next.errorSent <==> Failing(p)
    ensures r.notice.Some? <==> Changed(p) || (Failing(p) && !s.errorSent)
    ensures Changed(p) ==> r.notice == Some(p.outcome.value)
    ensures Failing(p) && !s.errorSent ==> r.notice == Some(FailureNotice(p.outcome.error))
  {
    var cursor := if p.fetched then p.now else s.cursor;
    match p.outcome
    case Success(message) =>
      Iteration(LoopState(cursor, false), Some(message))
    case Failure(NoNewStatus) =>
      Iteration(LoopState(cursor, false), None)
    case Failure(e) =>
      Iteration(LoopState(cursor, true), if s.errorSent then None else Some(FailureNotice(e)))
  }

  /** The first `|passes|` passes of the loop, one after the other. */
  function Run(s: LoopState, passes: seq<Pass>): (r: Trace)
    ensures |r.sent| <= |passes|
    ensures passes == [] ==> r == Trace(s, [])
    decreases |passes|
  {
    if passes == [] then
      Trace(s, [])
    else
      var before := Run(s, passes[..|passes| - 1]);
      var it := Next(before.final, passes[|passes| - 1]);
      Trace(it.next, before.sent + Sent(it.notice))
  }

  /** The time of the last pass whose fetch returned, or `start` if there was none. */
  function LastFetchTime(start: int, passes: seq<Pass>): int
    decreases |passes|
  {
    if passes == [] then start
    else if passes[0].fetched then LastFetchTime(passes[0].now, passes[1..])
    else LastFetchTime(start, passes[1..])
  }

  lemma {:induction false} LastFetchTimeSnoc(start: int, init: seq<Pass>, last: Pass)
    ensures LastFetchTime(start, init + [last]) == if last.fetched then last.now else LastFetchTime(start, init)
    decreases |init|
  {
    if init == [] {
      assert [last][1..] == [];
    } else {
      assert (init + [last])[1..] == init[1..] + [last];
      LastFetchTimeSnoc(if init[0].fetched then init[0].now else start, init[1..], last);
    }
  }

  /** The cursor is the clock reading of the last pass whose fetch returned. */
  lemma {:induction false} RunCursor(s: LoopState, passes: seq<Pass>)
    ensures Run(s, passes).final.cursor == LastFetchTime(s.cursor, passes)
    decreases |passes|
  {
    if passes != [] {
      var init, last := passes[..|passes| - 1], passes[|passes| - 1];
      assert passes == init + [last];
      RunCursor(s, init);
      LastFetchTimeSnoc(s.cursor, init, last);
    }
  }

  /** Passes whose fetch raised, or answered with a status other than 200, leave the cursor alone. */
  lemma {:induction false} CursorStaysWithoutFetch(s: LoopState, passes: seq<Pass>)
    requires forall i :: 0 <= i < |passes| ==> !passes[i].fetched
    ensures Run(s, passes).final.cursor == s.cursor
    decreases |passes|
  {
    if passes != [] {
      CursorStaysWithoutFetch(s, passes[..|passes| - 1]);
    }
  }

  /** After a run the flag says whether its last pass failed. */
  lemma RunFlag(s: LoopState, passes: seq<Pass>)
    ensures Run(s, passes).final.errorSent == if passes == [] then s.errorSent else Failing(passes[|passes| - 1])
  {
  }

  /**
   * A run of failing passes sends exactly one notice, quoting the first
   * failure, unless a notice for the ongoing failure was already sent.
   */
  lemma {:induction false} FailuresNotifyOnce(s: LoopState, passes: seq<Pass>)
    requires passes != []
    requires forall i :: 0 <= i < |passes| ==> Failing(passes[i])
    ensures Failing(passes[0]) && Run(s, passes).sent == if s.errorSent then [] else [FailureNotice(passes[0].outcome.error)]
    ensures Run(s, passes).final.errorSent
    decreases |passes|
  {
    var init := passes[..|passes| - 1];
    if init != [] {
      FailuresNotifyOnce(s, init);
      assert init[0] == passes[0];
    }
  }

  /** After a quiet or successful pass, the next failure is reported afresh. */
  lemma RecoveryRearmsNotice(s: LoopState, ok: Pass, bad: Pass)
    requires !Failing(ok) && Failing(bad)
    ensures !Next(s, ok).next.errorSent
    ensures Next(Next(s, ok).next, bad).notice == Some(FailureNotice(bad.outcome.error))
  {
  }

  /**
   * The `from_date` of each pass's request, in order: the cursor as it
   * stood when the pass began.
   */
  function Requested(s: LoopState, passes: seq<Pass>): (r: seq<int>)
    ensures |r| == |passes|
    decreases |passes|
  {
    if passes == [] then []
    else Requested(s, passes[..|passes| - 1]) + [Run(s, passes[..|passes| - 1]).final.cursor]
  }

  /** Pass `j` asks for updates since the cursor left by the `j` passes before it. */
  lemma {:induction false} RequestedIsCursor(s: LoopState, passes: seq<Pass>, j: nat)
    requires j < |passes|
    ensures Requested(s, passes)[j] == Run(s, passes[..j]).final.cursor
    decreases |passes|
  {
    var init := passes[..|passes| - 1];
    if j < |init| {
      RequestedIsCursor(s, init, j);
      assert init[..j] == passes[..j];
    }
  }

  /**
   * A pass whose fetch did not return is retried with the same `from_date`;
   * after one that returned, the next request starts from that pass's clock
   * reading. So pass `j` asks from the last earlier fetch that returned.
   */
  lemma RetrySameWindow(s: LoopState, passes: seq<Pass>, j: nat)
    requires j + 1 < |passes|
    ensures Requested(s, passes)[j + 1] == if passes[j].fetched then passes[j].now else Requested(s, passes)[j]
    ensures Requested(s, passes)[j] == LastFetchTime(s.cursor, passes[..j])
  {
    RequestedIsCursor(s, passes, j);
    RequestedIsCursor(s, passes, j + 1);
    assert passes[..j + 1][..j] == passes[..j];
    RunCursor(s, passes[..j]);
  }

  /** The number of passes that find a changed status. */
  function Changes(passes: seq<Pass>): nat
    decreases |passes|
  {
    if passes == [] then 0 else (if Changed(passes[0]) then 1 else 0) + Changes(passes[1..])
  }

  /** The number of failures that do not follow a failure (`failing`: whether the pass before the run failed). */
  function Onsets(failing: bool, passes: seq<Pass>): nat
    decreases |passes|
  {
    if passes == [] then 0
    else (if Failing(passes[0]) && !failing then 1 else 0) + Onsets(Failing(passes[0]), passes[1..])
  }

  /** A run from `s` that starts with the pass `p`: that pass, then the rest from its state. */
  lemma {:induction false} RunCons(s: LoopState, p: Pass, rest: seq<Pass>)
    ensures var it := Next(s, p); var r := Run(it.next, rest);
      Run(s, [p] + rest) == Trace(r.final, Sent(it.notice) + r.sent)
    decreases |rest|
  {
    if rest == [] {
      assert ([p] + rest)[..0] == [];
    } else {
      var init := rest[..|rest| - 1];
      assert ([p] + rest)[..|rest|] == [p] + init;
      RunCons(s, p, init);
    }
  }

  /** One message per changed status and one per onset of failure; quiet passes send nothing. */
  lemma {:induction false} NoticeCount(s: LoopState, passes: seq<Pass>)
    ensures |Run(s, passes).sent| == Changes(passes) + Onsets(s.errorSent, passes)
    decreases |passes|
  {
    if passes != [] {
      assert passes == [passes[0]] + passes[1..];
      RunCons(s, passes[0], passes[1..]);
      NoticeCount(Next(s, passes[0]).next, passes[1..]);
    }
  }

  /** The literal cases: a non-200 answer keeps the cursor, a body without "homeworks" moves it. */
  lemma FetchVersusValidation(s: LoopState, code: int, now: int)
    requires code != 200
    ensures var p := Observe(Tick(Answered(code, Json.JNull), now));
      p.outcome == Failure(EndpointUnavailable(code)) && Next(s, p).next.cursor == s.cursor
    ensures var p := Observe(Tick(Answered(200, Json.JObject(map["other" := Json.JNull])), now));
      && p.outcome == Failure(KeyError(NoHomeworksKeyText))
      && Next(s, p).next == LoopState(now, true)
  {
    assert "other" in map["other" := Json.JNull];
  }

  /** What the loop body sees of each tick, in order. */
  function Observations(ticks: seq<Tick>): (ps: seq<Pass>)
    ensures |ps| == |ticks|
    ensures forall i :: 0 <= i < |ticks| ==> ps[i] == Observe(ticks[i])
  {
    seq(|ticks|, i requires 0 <= i < |ticks| => Observe(ticks[i]))
  }

  /** One more tick extends a run, and its requests, by that tick's pass. */
  lemma RunObservationsSnoc(s: LoopState, ticks: seq<Tick>, i: nat)
    requires i < |ticks|
    ensures var before := Run(s, Observations(ticks[..i]));
      var it := Next(before.final, Observe(ticks[i]));
      && Run(s, Observations(ticks[..i + 1])) == Trace(it.next, before.sent + Sent(it.notice))
      && Requested(s, Observations(ticks[..i + 1])) == Requested(s, Observations(ticks[..i])) + [before.final.cursor]
  {
    var ps := Observations(ticks[..i + 1]);
    assert ps[..i] == Observations(ticks[..i]);
  }

  /** Appending to a log in two steps is appending once. */
  lemma AppendTwice<T>(log: seq<T>, earlier: seq<T>, later: seq<T>)
    ensures (log + earlier) + later == log + (earlier + later)
  {
  }

  /** `main` before the loop: no loop without all three settings. */
  function Startup(practicum: Option<string>, telegram: Option<string>, chatId: Option<string>): (r: Result<LoopState, Err>)
    ensures r.Success? <==> AllSet(practicum, telegram, chatId)
    ensures r.Success? ==> r.value == LoopState(0, false)
    ensures r.Failure? ==> r.error == NoToken
  {
    if !CheckTokens(practicum, telegram, chatId).ok then Failure(NoToken) else Success(LoopState(0, false))
  }

  /** The loop's state, updated in place pass by pass. */
  class Notifier {
    var cursor: int
    var errorSent: bool
    /** Every message handed to `send_message`, in order. */
    ghost var sent: seq<string>
    /** The `from_date` of every request made, in order. */
    ghost var requested: seq<int>

    function State(): LoopState
      reads this
    {
      LoopState(cursor, errorSent)
    }

    constructor ()
      ensures State() == LoopState(0, false) && sent == [] && requested == []
    {
      cursor := 0;
      errorSent := false;
      sent := [];
      requested := [];
    }

    /** One pass of the loop body. */
    method Step(tick: Tick) returns (notice: Option<string>)
      modifies this
      ensures Iteration(State(), notice) == Next(old(State()), Observe(tick))
      ensures sent == old(sent) + Sent(notice)
      ensures requested == old(requested) + [old(cursor)]
    {
      var outcome: Result<string, Err>;
      requested := requested + [cursor];
      var answer := GetApiAnswer(tick.fetch);
      if answer.Success? {
        cursor := tick.now;
        var homework := CheckResponse(answer.value);
        outcome := if homework.Success? then ParseStatus(homework.value) else Failure(homework.error);
      } else {
        outcome := Failure(answer.error);
      }
      notice := None;
      if outcome.Failure? && outcome.error == NoNewStatus {
        errorSent := false;
      } else if outcome.Failure? {
        if !errorSent {
          notice := Some(FailureNotice(outcome.error));
          sent := sent + [notice.value];
          errorSent := true;
        }
      } else {
        errorSent := false;
        notice := Some(outcome.value);
        sent := sent + [outcome.value];
      }
    }

    /** The first `|ticks|` passes of the `while True` loop. */
    method Poll(ticks: seq<Tick>)
      modifies this
      ensures State() == Run(old(State()), Observations(ticks)).final
      ensures sent == old(sent) + Run(old(State()), Observations(ticks)).sent
      ensures requested == old(requested) + Requested(old(State()), Observations(ticks))
    {
      ghost var start := State();
      var i := 0;
      while i < |ticks|
        invariant 0 <= i <= |ticks|
        invariant State() == Run(start, Observations(ticks[..i])).final
        invariant sent == old(sent) + Run(start, Observations(ticks[..i])).sent
        invariant requested == old(requested) + Requested(start, Observations(ticks[..i]))
      {
        ghost var before := Run(start, Observations(ticks[..i])).sent;
        ghost var asked := Requested(start, Observations(ticks[..i]));
        RunObservationsSnoc(start, ticks, i);
        var notice := Step(ticks[i]);
        AppendTwice(old(sent), before, Sent(notice));
        AppendTwice(old(requested), asked, [Run(start, Observations(ticks[..i])).final.cursor]);
        i := i + 1;
      }
      assert ticks[..i] == ticks;
    }
  }
}
