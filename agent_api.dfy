/**
 * The session bookkeeping of the agent API: the log hook that turns the
 * agent's log lines into queue items, the loop that folds the items (and
 * the time-outs and failures met while waiting for them) into the session
 * record, and the status query.
 */
module AgentApi {
  import opened Wrappers
  import opened Text
  import opened ToolKeys

  /** What the log hook puts on the result queue. */
  datatype QueueItem = Final(answer: string) | ToolResult(data: string)

  /**
   * What one turn of the waiting loop meets: an item taken from the queue,
   * a one-second time-out (noting whether the agent task has finished by
   * then), or any other exception, with its message.
   */
  datatype Arrival = Delivered(item: QueueItem) | TimedOut(taskDone: bool) | Failed(message: string)

  /** A recorded tool call: the tool's name and what it returned. */
  datatype ToolRecord = ToolRecord(tool: string, result: string)

  /** A session's record; `error` is the message of the exception that made it fail. */
  datatype Session = Session(
    status: string,
    results: map<string, ToolRecord>,
    finalAnswer: Option<string>,
    error: Option<string>)

  const FINAL_MARKER: string := "\U{2705} FINAL RESULT:"
  const RETURNED: string := "returned:"
  const NO_FINAL_ANSWER: string := "Agent completed without final answer"

  /** The record a session starts with. */
  const NEW_SESSION: Session := Session("running", map[], None, None)

  // ---------------------------------------------------------------- the log hook

  /** `patched_log`: the queue item a log line produces, if any. */
  function Classify(stage: string, msg: string): (r: Option<QueueItem>)
    ensures r.Some? <==> (stage == "agent" && StartsWith(msg, FINAL_MARKER)) || stage == "tool"
    ensures stage == "tool" ==> r == Some(ToolResult(msg))
    ensures r.Some? && r.value.Final? ==> Stripped(r.value.answer, IsPySpace)
  {
    if stage == "agent" && StartsWith(msg, FINAL_MARKER) then Some(Final(PyStrip(RemoveAll(msg, FINAL_MARKER))))
    else if stage == "tool" then Some(ToolResult(msg))
    else None
  }

  /** Removing a pattern from a text that starts with it is removing it from the rest. */
  lemma RemoveAllPrefix(pat: string, x: string)
    requires |pat| > 0
    ensures RemoveAll(pat + x, pat) == RemoveAll(x, pat)
  {
    assert (pat + x)[..|pat|] == pat;
    assert (pat + x)[|pat|..] == x;
  }

  /** Putting in front of `x` a character that cannot start `pat` creates no occurrence of `pat`. */
  lemma NoOccurrenceAfterSeparator(sep: char, x: string, pat: string)
    requires |pat| > 0 && sep != pat[0]
    requires forall k :: 0 <= k ==> !OccursAt(x, pat, k)
    ensures forall k :: 0 <= k ==> !OccursAt([sep] + x, pat, k)
  {
    var s := [sep] + x;
    forall k | 0 <= k ensures !OccursAt(s, pat, k) {
      if k == 0 {
        if |pat| <= |s| {
          assert s[..|pat|][0] == sep;
        }
      } else {
        assert !OccursAt(x, pat, k - 1);
        if k + |pat| <= |s| {
          assert s[k..k + |pat|] == x[k - 1..k - 1 + |pat|];
        }
      }
    }
  }

  /**
   * The agent's final-result line gives back the answer it announced: the
   * marker is removed and the space after it stripped.
   */
  lemma ClassifyFinalLine(answer: string)
    requires Stripped(answer, IsPySpace)
    requires forall k :: 0 <= k ==> !OccursAt(answer, FINAL_MARKER, k)
    ensures Classify("agent", FINAL_MARKER + " " + answer) == Some(Final(answer))
  {
    var msg := FINAL_MARKER + " " + answer;
    assert StartsWith(msg, FINAL_MARKER) by { assert msg[..|FINAL_MARKER|] == FINAL_MARKER; }
    assert msg == FINAL_MARKER + ([' '] + answer);
    RemoveAllPrefix(FINAL_MARKER, [' '] + answer);
    NoOccurrenceAfterSeparator(' ', answer, FINAL_MARKER);
    RemoveAllAbsent([' '] + answer, FINAL_MARKER);
    PyStripPadded(" ", answer, "");
    assert " " + answer + "" == [' '] + answer;
  }

  // ---------------------------------------------------------------- tool lines

  /** Python's `s.split(sep)[1]` when `sep` occurs: the text between the first and a second occurrence. */
  function SecondPiece(s: string, sep: string, first: nat): (r: string)
    requires |sep| > 0 && OccursAt(s, sep, first)
  {
    var rest := s[first + |sep|..];
    match Find(rest, sep, 0)
    case Some(j) => rest[..j]
    case None => rest
  }

  /**
   * The tool record parsed from a tool log line: the trimmed text before
   * the first `returned:` and the trimmed text after it up to the next one.
   * Lines without `returned:` record nothing.
   */
  function ParseToolLine(data: string): (r: Option<ToolRecord>)
    ensures r.Some? <==> Contains(data, RETURNED)
    ensures r.Some? ==> Stripped(r.value.tool, IsPySpace) && Stripped(r.value.result, IsPySpace)
  {
    match Find(data, RETURNED, 0)
    case None => None
    case Some(i) => Some(ToolRecord(PyStrip(data[..i]), PyStrip(SecondPiece(data, RETURNED, i))))
  }

  /**
   * A line `<tool> returned: <result>` reads back as the tool and the result,
   * when neither holds `returned:` and neither has surrounding whitespace.
   */
  lemma ParseToolLineRoundTrip(tool: string, result: string)
    requires Stripped(tool, IsPySpace) && Stripped(result, IsPySpace)
    requires forall k :: 0 <= k ==> !OccursAt(tool, RETURNED, k)
    requires forall k :: 0 <= k ==> !OccursAt(result, RETURNED, k)
    ensures ParseToolLine(tool + " " + RETURNED + " " + result) == Some(ToolRecord(tool, result))
  {
    ReturnedAfterTool(tool, result);
    ToolPiece(tool, result);
    ResultPiece(tool, result);
  }

  lemma ToolPiece(tool: string, result: string)
    requires Stripped(tool, IsPySpace)
    ensures PyStrip((tool + " " + RETURNED + " " + result)[..|tool| + 1]) == tool
  {
    assert (tool + " " + RETURNED + " " + result)[..|tool| + 1] == "" + tool + " ";
    PyStripPadded("", tool, " ");
  }

  lemma ResultPiece(tool: string, result: string)
    requires Stripped(result, IsPySpace)
    requires forall k :: 0 <= k ==> !OccursAt(result, RETURNED, k)
    ensures OccursAt(tool + " " + RETURNED + " " + result, RETURNED, |tool| + 1)
    ensures PyStrip(SecondPiece(tool + " " + RETURNED + " " + result, RETURNED, |tool| + 1)) == result
  {
    var line := tool + " " + RETURNED + " " + result;
    var i := |tool| + 1;
    assert line[i..i + |RETURNED|] == RETURNED;
    var rest := line[i + |RETURNED|..];
    assert rest == [' '] + result;
    NoOccurrenceAfterSeparator(' ', result, RETURNED);
    assert SecondPiece(line, RETURNED, i) == " " + result + "";
    PyStripPadded(" ", result, "");
  }

  /** In `<tool> returned: <result>` the first `returned:` is the one after the tool and the space. */
  lemma ReturnedAfterTool(tool: string, result: string)
    requires forall k :: 0 <= k ==> !OccursAt(tool, RETURNED, k)
    ensures Find(tool + " " + RETURNED + " " + result, RETURNED, 0) == Some(|tool| + 1)
  {
    var line := tool + " " + RETURNED + " " + result;
    var i := |tool| + 1;
    assert line[i..i + |RETURNED|] == RETURNED;
    forall k | 0 <= k < i ensures !OccursAt(line, RETURNED, k) {
      if k + |RETURNED| <= |tool| {
        assert !OccursAt(tool, RETURNED, k);
        assert line[k..k + |RETURNED|] == tool[k..k + |RETURNED|];
      } else if k + |RETURNED| <= |line| {
        assert line[k..k + |RETURNED|][|tool| - k] == line[|tool|] == ' ';
        assert ' ' !in RETURNED;
      }
    }
    FindFirst(line, RETURNED, i);
  }

  /** The first occurrence is found when there is one at `i` and none before it. */
  lemma {:induction false} FindFirst(s: string, pat: string, i: nat)
    requires OccursAt(s, pat, i) && forall k :: 0 <= k < i ==> !OccursAt(s, pat, k)
    ensures Find(s, pat, 0) == Some(i)
  {
    FindFrom(s, pat, 0, i);
  }

  lemma {:induction false} FindFrom(s: string, pat: string, from: nat, i: nat)
    requires from <= i && OccursAt(s, pat, i) && forall k :: from <= k < i ==> !OccursAt(s, pat, k)
    ensures Find(s, pat, from) == Some(i)
    decreases i - from
  {
    if from < i {
      FindFrom(s, pat, from + 1, i);
    }
  }

  // ---------------------------------------------------------------- the waiting loop

  /** One turn of the waiting loop: the new record, and whether the loop breaks. */
  function Step(s: Session, a: Arrival): (Session, bool) {
    match a
    case Delivered(Final(answer)) => (s.(status := "completed", finalAnswer := Some(answer)), true)
    case Delivered(ToolResult(data)) =>
      (match ParseToolLine(data)
       case Some(record) => (s.(results := s.results[ToolKey(|s.results|) := record]), false)
       case None => (s, false))
    case TimedOut(done) =>
      if !done then (s, false)
      else if s.finalAnswer.None? || s.finalAnswer.value == "" then
        (s.(status := "completed", finalAnswer := Some(NO_FINAL_ANSWER)), true)
      else (s, true)
    case Failed(message) => (s.(status := "error", error := Some(message)), true)
  }

  /** The record after the loop has met `arrivals`, and whether it has broken out. */
  function RunLoop(s: Session, arrivals: seq<Arrival>): (Session, bool)
    decreases |arrivals|
  {
    if arrivals == [] then (s, false)
    else
      var (t, stop) := Step(s, arrivals[0]);
      if stop then (t, true) else RunLoop(t, arrivals[1..])
  }

  /**
   * `run_agent_task`: the loop's record; once the loop has broken out, the
   * agent task is awaited and an exception from it (`taskError`) marks the
   * session failed, whatever the loop decided.
   */
  function AfterRun(arrivals: seq<Arrival>, taskError: Option<string>): Session {
    var (s, finished) := RunLoop(NEW_SESSION, arrivals);
    if finished && taskError.Some? then s.(status := "error", error := taskError) else s
  }

  /** The tool record an arrival carries, if it carries one. */
  function RecordOf(a: Arrival): seq<ToolRecord> {
    if a.Delivered? && a.item.ToolResult? then
      match ParseToolLine(a.item.data)
      case Some(record) => [record]
      case None => []
    else []
  }

  /** The tool records the loop stores, in order, from the arrivals it takes before breaking out. */
  function Recorded(s: Session, arrivals: seq<Arrival>): seq<ToolRecord>
    decreases |arrivals|
  {
    if arrivals == [] then []
    else if Step(s, arrivals[0]).1 then RecordOf(arrivals[0])
    else RecordOf(arrivals[0]) + Recorded(Step(s, arrivals[0]).0, arrivals[1..])
  }

  /** One turn files the record it meets, if any, under the next key. */
  lemma KeyedCount(es: seq<ToolRecord>)
    ensures |Keyed(es)| == |es|
  {
    KeyedContents(es);
  }

  lemma StepResults(s: Session, es: seq<ToolRecord>, a: Arrival)
    requires s.results == Keyed(es)
    ensures Step(s, a).0.results == Keyed(es + RecordOf(a))
  {
    if a.Delivered? && a.item.ToolResult? && ParseToolLine(a.item.data).Some? {
      var record := ParseToolLine(a.item.data).value;
      KeyedCount(es);
      KeyedAppend(es, record);
    } else {
      assert es + [] == es;
    }
  }

  /**
   * Results are filed under `tool_0`, `tool_1`, ... in arrival order: the
   * key is the number of results so far, so no entry is ever overwritten.
   */
  lemma {:induction false} RunLoopResults(s: Session, es: seq<ToolRecord>, arrivals: seq<Arrival>)
    requires s.results == Keyed(es)
    ensures RunLoop(s, arrivals).0.results == Keyed(es + Recorded(s, arrivals))
    decreases |arrivals|
  {
    if arrivals == [] {
      AppendNothing(es);
    } else {
      var a := arrivals[0];
      StepResults(s, es, a);
      if !Step(s, a).1 {
        var t := Step(s, a).0;
        RunLoopResults(t, es + RecordOf(a), arrivals[1..]);
        AppendAssociates(es, RecordOf(a), Recorded(t, arrivals[1..]));
      }
    }
  }

  lemma AppendNothing<T>(xs: seq<T>)
    ensures xs + [] == xs
  {}

  lemma AppendAssociates<T>(xs: seq<T>, ys: seq<T>, zs: seq<T>)
    ensures xs + ys + zs == xs + (ys + zs)
  {}

  /** From a fresh session, the results are exactly `tool_0` .. `tool_{n-1}`, the j-th holding the j-th record. */
  lemma ResultKeys(arrivals: seq<Arrival>)
    ensures var results := RunLoop(NEW_SESSION, arrivals).0.results;
      var records := Recorded(NEW_SESSION, arrivals);
      && results.Keys == ToolKeys.ToolKeys(|records|)
      && forall j :: 0 <= j < |records| ==> results[ToolKey(j)] == records[j]
  {
    assert NEW_SESSION.results == Keyed([]);
    RunLoopResults(NEW_SESSION, [], arrivals);
    assert [] + Recorded(NEW_SESSION, arrivals) == Recorded(NEW_SESSION, arrivals);
    KeyedContents(Recorded(NEW_SESSION, arrivals));
  }

  /** The loop's record, in the states it can reach from a fresh session. */
  predicate Reachable(s: Session, finished: bool) {
    if finished then
      (s.status == "completed" && s.finalAnswer.Some?) || (s.status == "error" && s.error.Some?)
    else s.status == "running" && s.finalAnswer.None? && s.error.None?
  }

  /**
   * Until it breaks out the loop keeps the session running with no final
   * answer; it breaks out completed with an answer or failed with a message.
   */
  lemma {:induction false} RunLoopStatus(s: Session, arrivals: seq<Arrival>)
    requires Reachable(s, false)
    ensures var (t, finished) := RunLoop(s, arrivals); Reachable(t, finished)
    decreases |arrivals|
  {
    if arrivals != [] {
      var (t, stop) := Step(s, arrivals[0]);
      if !stop {
        RunLoopStatus(t, arrivals[1..]);
      }
    }
  }

  /** The first final answer ends the loop: nothing after it is looked at. */
  lemma FinalEndsLoop(s: Session, answer: string, rest: seq<Arrival>)
    ensures RunLoop(s, [Delivered(Final(answer))] + rest)
      == (s.(status := "completed", finalAnswer := Some(answer)), true)
  {}

  /**
   * A finished agent task found at a time-out, with no answer yet, completes
   * the session with the stock answer and ends the loop.
   */
  lemma TimeOutAfterTaskEnds(s: Session, rest: seq<Arrival>)
    requires s.finalAnswer.None?
    ensures RunLoop(s, [TimedOut(true)] + rest)
      == (s.(status := "completed", finalAnswer := Some(NO_FINAL_ANSWER)), true)
  {}

  /** A time-out while the agent task is still running changes nothing and the loop waits on. */
  lemma TimeOutWhileRunning(s: Session, rest: seq<Arrival>)
    ensures RunLoop(s, [TimedOut(false)] + rest) == RunLoop(s, rest)
  {
    assert ([TimedOut(false)] + rest)[1..] == rest;
  }

  /**
   * A failure of the awaited agent task overrides what the loop decided,
   * a "completed" status included, and keeps the results and the answer.
   */
  lemma TaskErrorOverrides(arrivals: seq<Arrival>, message: string)
    requires RunLoop(NEW_SESSION, arrivals).1
    ensures var s := AfterRun(arrivals, Some(message));
      && s.status == "error" && s.error == Some(message)
      && s.results == RunLoop(NEW_SESSION, arrivals).0.results
      && s.finalAnswer == RunLoop(NEW_SESSION, arrivals).0.finalAnswer
  {}

  // ---------------------------------------------------------------- the session table

  /** The body of `GET /session/{id}` for a known session. */
  datatype StatusResponse = StatusResponse(status: string, results: map<string, ToolRecord>, finalAnswer: Option<string>)

  /** An HTTP error status, or the response. */
  datatype Reply = NotFound(code: int) | Found(response: StatusResponse)

  /** The `sessions` table of the API process. */
  class SessionRegistry {
    var sessions: map<string, Session>

    constructor()
      ensures sessions == map[]
    {
      sessions := map[];
    }

    /**
     * `run_agent_task` for session `id`, given what the waiting loop meets
     * and what awaiting the agent task raises, if anything.
     */
    method RunAgentTask(id: string, arrivals: seq<Arrival>, taskError: Option<string>)
      modifies this
      ensures sessions == old(sessions)[id := AfterRun(arrivals, taskError)]
    {
      sessions := sessions[id := NEW_SESSION];
      var i := 0;
      var finished := false;
      while i < |arrivals| && !finished
        invariant 0 <= i <= |arrivals|
        invariant id in sessions && sessions == old(sessions)[id := sessions[id]]
        invariant !finished ==> RunLoop(sessions[id], arrivals[i..]) == RunLoop(NEW_SESSION, arrivals)
        invariant finished ==> (sessions[id], true) == RunLoop(NEW_SESSION, arrivals)
      {
        var s := sessions[id];
        var a := arrivals[i];
        assert arrivals[i..][0] == a && arrivals[i..][1..] == arrivals[i + 1..];
        match a {
          case Delivered(item) =>
            match item {
              case Final(answer) =>
                s := s.(status := "completed", finalAnswer := Some(answer));
                finished := true;
              case ToolResult(data) =>
                if Contains(data, RETURNED) {
                  var record := ParseToolLine(data).value;
                  s := s.(results := s.results[ToolKey(|s.results|) := record]);
                }
            }
          case TimedOut(done) =>
            if done {
              if s.finalAnswer.None? || s.finalAnswer.value == "" {
                s := s.(status := "completed", finalAnswer := Some(NO_FINAL_ANSWER));
              }
              finished := true;
            }
          case Failed(message) =>
            s := s.(status := "error", error := Some(message));
            finished := true;
        }
        sessions := sessions[id := s];
        i := i + 1;
      }
      if !finished {
        assert arrivals[i..] == [];
      } else if taskError.Some? {
        sessions := sessions[id := sessions[id].(status := "error", error := taskError)];
      }
    }

    /** `get_session_status`: 404 for an unknown id, else exactly the status, the results and the final answer. */
    method GetSessionStatus(id: string) returns (r: Reply)
      ensures id !in sessions ==> r == NotFound(404)
      ensures id in sessions ==>
        r == Found(StatusResponse(sessions[id].status, sessions[id].results, sessions[id].finalAnswer))
    {
      if id !in sessions {
        return NotFound(404);
      }
      var s := sessions[id];
      r := Found(StatusResponse(s.status, s.results, s.finalAnswer));
    }
  }
}
