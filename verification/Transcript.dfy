/** What a turn writes into the history: tool calls are answered, in order and once, before the model is asked again. */
module Transcripts {
  import opened Prelude
  import Domain

  datatype Call = Call(id: string, name: string, arguments: string)

  datatype Entry =
    | Input
    | Assistant(text: string, calls: seq<Call>)
    | Answer(callId: string, name: string, content: string, isError: bool, metadata: string)

  // ---------------------------------------------------------------------------------------------
  // Well-formed transcripts

  /** The entries answer the calls one by one, in order. */
  predicate Answers(calls: seq<Call>, entries: seq<Entry>) {
    && |entries| == |calls|
    && forall i | 0 <= i < |calls| :: entries[i].Answer? && entries[i].callId == calls[i].id
  }

  /** Every assistant message is directly followed by the answers to its calls, and there are no other answers. */
  predicate Settled(t: seq<Entry>)
    decreases |t|
  {
    || t == []
    || (t[0].Input? && Settled(t[1..]))
    || (t[0].Assistant? && |t[0].calls| < |t|
        && Answers(t[0].calls, t[1..1 + |t[0].calls|])
        && Settled(t[1 + |t[0].calls|..]))
  }

  /** Settled up to a last assistant message that has only some of its answers yet. */
  predicate SettledSoFar(t: seq<Entry>) {
    Settled(t) || exists k :: 0 <= k < |t| && Unanswered(t, k)
  }

  predicate Unanswered(t: seq<Entry>, k: nat)
    requires k < |t|
  {
    && Settled(t[..k]) && t[k].Assistant? && |t| - k - 1 <= |t[k].calls|
    && Answers(t[k].calls[..|t| - k - 1], t[k + 1..])
  }

  lemma {:induction false} SettledConcat(a: seq<Entry>, b: seq<Entry>)
    requires Settled(a) && Settled(b)
    ensures Settled(a + b)
    decreases |a|
  {
    if a == [] {
      assert a + b == b;
    } else {
      var n := if a[0].Assistant? then 1 + |a[0].calls| else 1;
      SettledConcat(a[n..], b);
      assert (a + b)[n..] == a[n..] + b && (a + b)[1..n] == a[1..n];
    }
  }

  lemma BlockIsSettled(text: string, calls: seq<Call>, answers: seq<Entry>)
    requires Answers(calls, answers)
    ensures Settled([Assistant(text, calls)] + answers)
  {
    var t := [Assistant(text, calls)] + answers;
    assert t[1..1 + |calls|] == answers && t[1 + |calls|..] == [];
  }

  lemma BlockAppended(t: seq<Entry>, text: string, calls: seq<Call>, answers: seq<Entry>)
    requires Settled(t) && Answers(calls, answers)
    ensures Settled(t + [Assistant(text, calls)] + answers)
  {
    BlockIsSettled(text, calls, answers);
    SettledConcat(t, [Assistant(text, calls)] + answers);
    assert t + [Assistant(text, calls)] + answers == t + ([Assistant(text, calls)] + answers);
  }

  // ---------------------------------------------------------------------------------------------
  // Model responses

  datatype Content = TextContent(text: string) | CallContent(call: Call) | ResultContent | ImageContent

  datatype FinishReason = StopReason | ToolCallsReason | OtherReason

  datatype Response = Response(content: seq<Content>, finish: FinishReason)

  function Calls(content: seq<Content>): seq<Call> {
    if content == [] then []
    else
      Calls(content[..|content| - 1])
      + (if content[|content| - 1].CallContent? then [content[|content| - 1].call] else [])
  }

  function TextOf(content: seq<Content>): string {
    if content == [] then []
    else
      TextOf(content[..|content| - 1])
      + (if content[|content| - 1].TextContent? then content[|content| - 1].text else [])
  }

  predicate DistinctIds(calls: seq<Call>) { forall i, j | 0 <= i < j < |calls| :: calls[i].id != calls[j].id }

  predicate Named(c: Call) { !Domain.Blank(c.id) && !Domain.Blank(c.name) }

  /** Nothing but text and named calls with different ids, and the finish reason says whether there are calls. */
  predicate ValidResponse(r: Response) {
    && (forall i | 0 <= i < |r.content| :: r.content[i].TextContent? || r.content[i].CallContent?)
    && (forall i | 0 <= i < |Calls(r.content)| :: Named(Calls(r.content)[i]))
    && DistinctIds(Calls(r.content))
    && (r.finish == ToolCallsReason <==> Calls(r.content) != [])
  }

  lemma {:induction false} CallsOfPrefix(content: seq<Content>, n: nat)
    requires n <= |content|
    ensures Calls(content[..n]) <= Calls(content)
    decreases |content|
  {
    if n == |content| {
      assert content[..n] == content;
    } else {
      CallsOfPrefix(content[..|content| - 1], n);
      assert content[..|content| - 1][..n] == content[..n];
    }
  }

  /** The prefix that has been read is fine so far. */
  ghost predicate FineUpTo(content: seq<Content>, n: nat, ids: set<string>, count: nat)
    requires n <= |content|
  {
    var calls := Calls(content[..n]);
    && (forall i | 0 <= i < n :: content[i].TextContent? || content[i].CallContent?)
    && (forall i | 0 <= i < |calls| :: Named(calls[i]))
    && DistinctIds(calls)
    && count == |calls|
    && (forall id :: id in ids <==> exists i :: 0 <= i < |calls| && calls[i].id == id)
  }

  lemma FineStep(content: seq<Content>, n: nat, ids: set<string>, count: nat)
    requires n < |content| && FineUpTo(content, n, ids, count)
    ensures content[n].TextContent? ==> FineUpTo(content, n + 1, ids, count)
    ensures content[n].CallContent? && Named(content[n].call) && content[n].call.id !in ids ==>
      FineUpTo(content, n + 1, ids + {content[n].call.id}, count + 1)
    ensures content[n].CallContent? && (!Named(content[n].call) || content[n].call.id in ids) ==>
      !(DistinctIds(Calls(content)) && forall i | 0 <= i < |Calls(content)| :: Named(Calls(content)[i]))
  {
    assert content[..n + 1][..n] == content[..n];
    CallsOfPrefix(content, n + 1);
    var calls, more := Calls(content[..n]), Calls(content[..n + 1]);
    if content[n].CallContent? {
      assert more == calls + [content[n].call];
      assert more[|calls|] == content[n].call && Calls(content)[|calls|] == content[n].call;
      assert forall i | 0 <= i < |calls| :: more[i] == calls[i] && Calls(content)[i] == calls[i];
      if content[n].call.id !in ids {
        forall id
          ensures id in ids + {content[n].call.id} <==> exists i :: 0 <= i < |more| && more[i].id == id
        {
          if id in ids {
            var i :| 0 <= i < |calls| && calls[i].id == id;
            assert more[i].id == id;
          }
        }
      }
    } else {
      assert more == calls;
    }
  }

  /** The validation loop accepts exactly the valid responses. */
  method ValidateModelResponse(r: Response) returns (ok: bool)
    ensures ok <==> ValidResponse(r)
  {
    var ids: set<string> := {};
    var count := 0;
    var i := 0;
    while i < |r.content|
      invariant 0 <= i <= |r.content|
      invariant FineUpTo(r.content, i, ids, count)
    {
      FineStep(r.content, i, ids, count);
      match r.content[i] {
        case CallContent(call) =>
          count := count + 1;
          if Domain.Blank(call.id) || Domain.Blank(call.name) || call.id in ids {
            return false;
          }
          ids := ids + {call.id};
        case ResultContent => return false;
        case ImageContent => return false;
        case TextContent(_) =>
      }
      i := i + 1;
    }
    assert r.content[..i] == r.content;
    ok := (r.finish == ToolCallsReason) == (count > 0);
  }

  // ---------------------------------------------------------------------------------------------
  // The agent loop

  /** How one call goes: answered by its tool, by a refusal or by an error, or the turn ends there. */
  datatype Fate = Answered(content: string, isError: bool, metadata: string) | EndsTurn

  /** How one step goes; it may already end before the model is asked. */
  datatype Step = NotAsked | Fails | Responds(response: Response, stored: bool, fates: seq<Fate>)

  datatype Outcome = Finished(text: string) | StepLimit | TurnError

  function FateOf(step: Step, i: nat): Fate
    requires step.Responds?
  {
    if i < |step.fates| then step.fates[i] else EndsTurn
  }

  function AnswerTo(c: Call, f: Fate): Entry
    requires f.Answered?
  {
    Answer(c.id, c.name, f.content, f.isError, f.metadata)
  }

  predicate AllSettled(requests: seq<seq<Entry>>) { forall i | 0 <= i < |requests| :: Settled(requests[i]) }

  /** Each list is a proper prefix of the next, the first extends the start, and the last is a prefix of the whole. */
  predicate Growing(start: seq<Entry>, requests: seq<seq<Entry>>, whole: seq<Entry>) {
    && start <= whole
    && (forall i | 0 <= i < |requests| :: start <= requests[i] <= whole)
    && (forall i, j | 0 <= i < j < |requests| :: |requests[i]| < |requests[j]|)
  }

  lemma AllSettledAsks(requests: seq<seq<Entry>>, t: seq<Entry>)
    requires AllSettled(requests) && Settled(t)
    ensures AllSettled(requests + [t])
  {
  }

  lemma GrowingAsks(start: seq<Entry>, requests: seq<seq<Entry>>, t: seq<Entry>, more: seq<Entry>)
    requires Growing(start, requests, t) && t <= more
    requires forall i | 0 <= i < |requests| :: |requests[i]| < |t|
    ensures Growing(start, requests + [t], more)
  {
    var asked := requests + [t];
    forall i | 0 <= i < |asked|
      ensures start <= asked[i] <= more
    {
      assert asked[i] == t || asked[i] == requests[i];
    }
  }

  /** Between steps: a settled history longer than any that was shown. */
  predicate Ready(start: seq<Entry>, requests: seq<seq<Entry>>, transcript: seq<Entry>) {
    && Settled(transcript) && AllSettled(requests)
    && Growing(start, requests, transcript)
    && (forall i | 0 <= i < |requests| :: |requests[i]| < |transcript|)
  }

  lemma StepDone(start: seq<Entry>, requests: seq<seq<Entry>>, before: seq<Entry>, text: string, calls: seq<Call>,
                 answers: seq<Entry>)
    requires Ready(start, requests, before) && |answers| <= |calls| && Answers(calls[..|answers|], answers)
    ensures var after := before + [Assistant(text, calls)] + answers;
      && AllSettled(requests + [before]) && Growing(start, requests + [before], after)
      && SettledSoFar(after)
      && (|answers| == |calls| ==> Ready(start, requests + [before], after))
  {
    PartlyAnswered(before, text, calls, answers);
    AllSettledAsks(requests, before);
    GrowingAsks(start, requests, before, before + [Assistant(text, calls)] + answers);
  }

  /** What the model is shown at each request, and what remains. */
  ghost predicate LoopPromise(start: seq<Entry>, maxSteps: nat, requests: seq<seq<Entry>>, transcript: seq<Entry>,
                              outcome: Outcome)
  {
    && |requests| <= maxSteps
    && AllSettled(requests) && Growing(start, requests, transcript)
    && SettledSoFar(transcript)
    && (outcome != TurnError ==> Settled(transcript))
    && (outcome == StepLimit ==> |requests| == maxSteps)
    && (outcome.Finished? ==> requests != [] && transcript == requests[|requests| - 1] + [Assistant(outcome.text, [])])
  }

  /** The loop of at most `maxSteps` model requests; `script` is what provider, tools and user do. */
  method ExecuteLoop(start: seq<Entry>, maxSteps: nat, script: nat -> Step)
    returns (requests: seq<seq<Entry>>, transcript: seq<Entry>, outcome: Outcome)
    requires Settled(start)
    ensures LoopPromise(start, maxSteps, requests, transcript, outcome)
  {
    requests, transcript := [], start;
    var step := 1;
    while step <= maxSteps
      invariant 1 <= step <= maxSteps + 1
      invariant |requests| == step - 1
      invariant Ready(start, requests, transcript)
    {
      var s := script(step);
      if s.NotAsked? {
        return requests, transcript, TurnError;
      }
      AllSettledAsks(requests, transcript);
      GrowingAsks(start, requests, transcript, transcript);
      if s.Fails? {
        return requests + [transcript], transcript, TurnError;
      }
      var valid := ValidateModelResponse(s.response);
      if !valid || !s.stored {
        return requests + [transcript], transcript, TurnError;
      }
      var text, calls := TextOf(s.response.content), Calls(s.response.content);
      var answers := AnswerCalls(calls, s);
      StepDone(start, requests, transcript, text, calls, answers);
      requests, transcript := requests + [transcript], transcript + [Assistant(text, calls)] + answers;
      if calls == [] {
        return requests, transcript, Finished(text);
      }
      if |answers| < |calls| {
        return requests, transcript, TurnError;
      }
      step := step + 1;
    }
    outcome := StepLimit;
  }

  /** Calls are run in order; the first that ends the turn leaves the rest unanswered. */
  method AnswerCalls(calls: seq<Call>, s: Step) returns (answers: seq<Entry>)
    requires s.Responds?
    ensures |answers| <= |calls|
    ensures forall i | 0 <= i < |answers| :: FateOf(s, i).Answered? && answers[i] == AnswerTo(calls[i], FateOf(s, i))
    ensures |answers| < |calls| ==> FateOf(s, |answers|).EndsTurn?
  {
    answers := [];
    var i := 0;
    while i < |calls|
      invariant 0 <= i <= |calls| && |answers| == i
      invariant forall k | 0 <= k < i :: FateOf(s, k).Answered? && answers[k] == AnswerTo(calls[k], FateOf(s, k))
    {
      if FateOf(s, i).EndsTurn? {
        return;
      }
      answers := answers + [AnswerTo(calls[i], FateOf(s, i))];
      i := i + 1;
    }
  }

  lemma PartlyAnswered(settled: seq<Entry>, text: string, calls: seq<Call>, answers: seq<Entry>)
    requires Settled(settled) && |answers| <= |calls| && Answers(calls[..|answers|], answers)
    ensures SettledSoFar(settled + [Assistant(text, calls)] + answers)
    ensures |answers| == |calls| ==> Settled(settled + [Assistant(text, calls)] + answers)
  {
    if |answers| == |calls| {
      assert calls[..|answers|] == calls;
      BlockAppended(settled, text, calls, answers);
    }
    var t := settled + [Assistant(text, calls)] + answers;
    var k := |settled|;
    assert t[..k] == settled && t[k] == Assistant(text, calls) && t[k + 1..] == answers;
    assert Unanswered(t, k);
  }

  // ---------------------------------------------------------------------------------------------
  // Tool activity reported by an external agent

  datatype ToolEvent =
    | ToolStarted(id: string, name: string, arguments: string)
    | ToolCompleted(id: string, name: string, content: string, isError: bool, metadata: string)

  datatype Report = Report(content: string, isError: bool, metadata: string)

  datatype Activity = Activity(id: string, name: string, arguments: string, result: Option<Report>)

  predicate Mentions(events: seq<ToolEvent>, id: string) { exists i :: 0 <= i < |events| && events[i].id == id }

  /** The identifiers in the order in which they first occur. */
  function FirstSeen(events: seq<ToolEvent>): seq<string> {
    if events == [] then []
    else
      var init := events[..|events| - 1];
      var last := events[|events| - 1];
      if Mentions(init, last.id) then FirstSeen(init) else FirstSeen(init) + [last.id]
  }

  /** The name the last event gave. */
  function LastName(events: seq<ToolEvent>, id: string): string {
    if events == [] then ""
    else if events[|events| - 1].id == id then events[|events| - 1].name
    else LastName(events[..|events| - 1], id)
  }

  /** The last completion, if there was one. */
  function LastReport(events: seq<ToolEvent>, id: string): Option<Report> {
    if events == [] then None
    else
      var last := events[|events| - 1];
      if last.id == id && last.ToolCompleted? then Some(Report(last.content, last.isError, last.metadata))
      else LastReport(events[..|events| - 1], id)
  }

  /** The arguments of the last start; before any start, the metadata of the first completion. */
  function LastArguments(events: seq<ToolEvent>, id: string): string {
    if events == [] then ""
    else
      var init := events[..|events| - 1];
      var last := events[|events| - 1];
      if last.id != id then LastArguments(init, id)
      else if last.ToolStarted? then last.arguments
      else if Mentions(init, id) then LastArguments(init, id)
      else last.metadata
  }

  function ActivityOf(events: seq<ToolEvent>, id: string): Activity {
    Activity(id, LastName(events, id), LastArguments(events, id), LastReport(events, id))
  }

  predicate Summarises(events: seq<ToolEvent>, activities: seq<Activity>) {
    && |activities| == |FirstSeen(events)|
    && forall i | 0 <= i < |activities| :: activities[i] == ActivityOf(events, FirstSeen(events)[i])
  }

  lemma {:induction false} FirstSeenListsEach(events: seq<ToolEvent>)
    ensures forall id :: id in FirstSeen(events) <==> Mentions(events, id)
    ensures forall i, j | 0 <= i < j < |FirstSeen(events)| :: FirstSeen(events)[i] != FirstSeen(events)[j]
  {
    if events != [] {
      var init, last := events[..|events| - 1], events[|events| - 1];
      FirstSeenListsEach(init);
      forall id
        ensures Mentions(events, id) <==> id == last.id || Mentions(init, id)
      {
        if Mentions(init, id) {
          var i :| 0 <= i < |init| && init[i].id == id;
          assert events[i].id == id;
        }
        if Mentions(events, id) && id != last.id {
          var i :| 0 <= i < |events| && events[i].id == id;
          assert init[i].id == id;
        }
        assert events[|events| - 1].id == last.id;
      }
    }
  }

  function Updated(a: Activity, e: ToolEvent): Activity {
    match e
    case ToolStarted(_, name, arguments) => a.(name := name, arguments := arguments)
    case ToolCompleted(_, name, content, isError, metadata) =>
      a.(name := name, result := Some(Report(content, isError, metadata)))
  }

  function Begun(e: ToolEvent): Activity {
    match e
    case ToolStarted(id, name, arguments) => Activity(id, name, arguments, None)
    case ToolCompleted(id, name, content, isError, metadata) =>
      Activity(id, name, metadata, Some(Report(content, isError, metadata)))
  }

  lemma {:induction false} NothingSaidYet(events: seq<ToolEvent>, id: string)
    requires !Mentions(events, id)
    ensures LastReport(events, id) == None
  {
    if events != [] {
      assert events[|events| - 1].id != id;
      assert forall i | 0 <= i < |events| - 1 :: events[..|events| - 1][i] == events[i];
      NothingSaidYet(events[..|events| - 1], id);
    }
  }

  lemma ActivityStep(events: seq<ToolEvent>, e: ToolEvent, id: string)
    ensures var more := events + [e];
      ActivityOf(more, id) ==
        if e.id != id then ActivityOf(events, id)
        else if Mentions(events, id) then Updated(ActivityOf(events, id), e)
        else Begun(e)
  {
    var more := events + [e];
    assert more[..|more| - 1] == events && more[|more| - 1] == e;
    if !Mentions(events, id) {
      NothingSaidYet(events, id);
    }
  }

  lemma SummaryStep(events: seq<ToolEvent>, e: ToolEvent, activities: seq<Activity>)
    requires Summarises(events, activities)
    ensures forall i | 0 <= i < |activities| && activities[i].id == e.id ::
      Summarises(events + [e], activities[i := Updated(activities[i], e)])
    ensures (forall i | 0 <= i < |activities| :: activities[i].id != e.id) ==>
      Summarises(events + [e], activities + [Begun(e)])
  {
    var more := events + [e];
    assert more[..|more| - 1] == events && more[|more| - 1] == e;
    FirstSeenListsEach(events);
    var seen := FirstSeen(events);
    forall i | 0 <= i < |seen| {
      ActivityStep(events, e, seen[i]);
    }
    ActivityStep(events, e, e.id);
    if forall i | 0 <= i < |activities| :: activities[i].id != e.id {
      assert e.id !in seen;
      assert FirstSeen(more) == seen + [e.id];
    }
    forall i | 0 <= i < |activities| && activities[i].id == e.id
      ensures Summarises(more, activities[i := Updated(activities[i], e)])
    {
      assert seen[i] in seen && FirstSeen(more) == seen;
    }
  }

  /** The list is edited event by event: found activities are updated, others are added. */
  method CollectActivities(events: seq<ToolEvent>) returns (activities: seq<Activity>)
    ensures Summarises(events, activities)
  {
    activities := [];
    var n := 0;
    while n < |events|
      invariant 0 <= n <= |events|
      invariant Summarises(events[..n], activities)
    {
      var e := events[n];
      SummaryStep(events[..n], e, activities);
      assert events[..n] + [e] == events[..n + 1];
      var i := 0;
      while i < |activities| && activities[i].id != e.id
        invariant 0 <= i <= |activities|
        invariant forall k | 0 <= k < i :: activities[k].id != e.id
      {
        i := i + 1;
      }
      if i < |activities| {
        activities := activities[i := Updated(activities[i], e)];
      } else {
        activities := activities + [Begun(e)];
      }
      n := n + 1;
    }
    assert events[..n] == events;
  }

  const UNREPORTED := "The external tool did not report completion before the Turn ended."

  function CallOf(a: Activity): Call { Call(a.id, a.name, a.arguments) }

  function ReportedAnswer(a: Activity): Entry {
    match a.result
    case Some(report) => Answer(a.id, a.name, report.content, report.isError, report.metadata)
    case None => Answer(a.id, a.name, UNREPORTED, true, "null")
  }

  lemma SeenUnlessEmpty(events: seq<ToolEvent>)
    ensures FirstSeen(events) == [] <==> events == []
  {
    if events != [] {
      FirstSeenListsEach(events);
      assert Mentions(events, events[0].id);
    }
  }

  /** One call per identifier, in the order first seen, and one answer to each in the same order. */
  ghost predicate Persists(events: seq<ToolEvent>, entries: seq<Entry>) {
    var seen := FirstSeen(events);
    && entries != [] && entries[0].Assistant? && entries[0].text == ""
    && |entries| == 1 + |seen| == 1 + |entries[0].calls|
    && DistinctIds(entries[0].calls)
    && forall i | 0 <= i < |seen| ::
        entries[0].calls[i] == CallOf(ActivityOf(events, seen[i]))
          && entries[1 + i] == ReportedAnswer(ActivityOf(events, seen[i]))
  }

  ghost predicate PersistsAny(events: seq<ToolEvent>, entries: seq<Entry>) {
    if events == [] then entries == [] else Persists(events, entries)
  }

  /** The promise leaves no choice. */
  lemma PersistsIsUnique(events: seq<ToolEvent>, a: seq<Entry>, b: seq<Entry>)
    requires Persists(events, a) && Persists(events, b)
    ensures a == b
  {
    assert a[0].calls == b[0].calls;
    forall i | 0 <= i < |a|
      ensures a[i] == b[i]
    {
      if i > 0 {
        assert a[1 + (i - 1)] == ReportedAnswer(ActivityOf(events, FirstSeen(events)[i - 1])) == b[1 + (i - 1)];
      }
    }
  }

  ghost predicate CutShort(events: seq<ToolEvent>, entries: seq<Entry>, rest: seq<Entry>) {
    rest != [] && PersistsAny(events, entries + rest)
  }

  function CallsOf(activities: seq<Activity>): seq<Call> {
    seq(|activities|, i requires 0 <= i < |activities| => CallOf(activities[i]))
  }

  function AnswersOf(activities: seq<Activity>): seq<Entry> {
    seq(|activities|, i requires 0 <= i < |activities| => ReportedAnswer(activities[i]))
  }

  /** What is written when the first `n` answers are. */
  function Written(activities: seq<Activity>, n: nat): seq<Entry>
    requires n <= |activities|
  {
    [Assistant("", CallsOf(activities))] + AnswersOf(activities)[..n]
  }

  lemma AllWrittenPersists(events: seq<ToolEvent>, activities: seq<Activity>)
    requires Summarises(events, activities) && activities != []
    ensures PersistsAny(events, Written(activities, |activities|))
  {
    FirstSeenListsEach(events);
    SeenUnlessEmpty(events);
    assert AnswersOf(activities)[..|activities|] == AnswersOf(activities);
  }

  lemma WrittenIsAnswered(activities: seq<Activity>, n: nat)
    requires n <= |activities|
    ensures SettledSoFar(Written(activities, n))
    ensures n == |activities| ==> Settled(Written(activities, n))
    ensures Written(activities, n) + AnswersOf(activities)[n..] == Written(activities, |activities|)
  {
    PartlyAnswered([], "", CallsOf(activities), AnswersOf(activities)[..n]);
    assert [] + [Assistant("", CallsOf(activities))] + AnswersOf(activities)[..n] == Written(activities, n);
  }

  /**
   One assistant message with all calls, then one answer per call in the same order. The append after
   `room` others fails and ends it; what is written by then is still answered in order.
   */
  method PersistExternalToolActivity(events: seq<ToolEvent>, room: nat) returns (entries: seq<Entry>, ok: bool)
    ensures ok ==> PersistsAny(events, entries) && Settled(entries) && |entries| <= room
    ensures !ok ==> |entries| == room && exists rest :: CutShort(events, entries, rest)
    ensures SettledSoFar(entries)
  {
    var activities := CollectActivities(events);
    entries, ok := [], true;
    if activities == [] {
      FirstSeenListsEach(events);
      SeenUnlessEmpty(events);
      return;
    }
    AllWrittenPersists(events, activities);
    if room == 0 {
      assert [] + Written(activities, |activities|) == Written(activities, |activities|);
      assert CutShort(events, [], Written(activities, |activities|));
      ok := false;
      return;
    }
    entries := [Assistant("", CallsOf(activities))];
    var i := 0;
    while i < |activities| && 1 + i < room
      invariant 0 <= i <= |activities| && 1 + i <= room && entries == Written(activities, i)
    {
      entries := entries + [ReportedAnswer(activities[i])];
      i := i + 1;
    }
    ok := i == |activities|;
    WrittenIsAnswered(activities, i);
    assert !ok ==> CutShort(events, entries, AnswersOf(activities)[i..]);
  }
}
