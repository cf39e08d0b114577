/** The events of one turn: numbered, with one terminal event after which only title updates may come. */
module TurnEvents {

  datatype AgentEvent =
    | ToolActivity(id: string, completed: bool, details: string)
    | Progress(details: string)
    | Terminal(details: string)
    | ThreadUpdated(title: string)

  datatype Envelope = Envelope(sequence: nat, event: AgentEvent)

  predicate RuntimeOwned(e: AgentEvent) { e.Terminal? || e.ThreadUpdated? }

  function ToolEventsOf(published: seq<Envelope>): seq<AgentEvent> {
    if published == [] then []
    else
      var last := published[|published| - 1].event;
      ToolEventsOf(published[..|published| - 1]) + (if last.ToolActivity? then [last] else [])
  }

  predicate HasTerminal(published: seq<Envelope>) {
    exists i :: 0 <= i < |published| && published[i].event.Terminal?
  }

  /** Numbered from one; nothing but title updates after a terminal event, and none before it. */
  predicate InOrder(published: seq<Envelope>) {
    && (forall i | 0 <= i < |published| :: published[i].sequence == i + 1)
    && (forall i, j | 0 <= i < j < |published| && published[i].event.Terminal? :: published[j].event.ThreadUpdated?)
    && (forall j | 0 <= j < |published| && published[j].event.ThreadUpdated? ::
        exists i :: 0 <= i < j && published[i].event.Terminal?)
  }

  /** What is published after an attempt to publish, on each of the three ways. */
  function Emitted(published: seq<Envelope>, e: AgentEvent): seq<Envelope> {
    if RuntimeOwned(e) || HasTerminal(published) then published else published + [Envelope(|published| + 1, e)]
  }

  function EmittedTerminal(published: seq<Envelope>, e: AgentEvent): seq<Envelope> {
    if !e.Terminal? || HasTerminal(published) then published else published + [Envelope(|published| + 1, e)]
  }

  function EmittedTitle(published: seq<Envelope>, title: string): seq<Envelope> {
    if !HasTerminal(published) then published else published + [Envelope(|published| + 1, ThreadUpdated(title))]
  }

  lemma AttemptsKeepOrder(published: seq<Envelope>, e: AgentEvent, title: string)
    requires InOrder(published)
    ensures InOrder(Emitted(published, e))
    ensures InOrder(EmittedTerminal(published, e))
    ensures InOrder(EmittedTitle(published, title))
  {
    if HasTerminal(published) {
      AppendKeepsOrder(published, ThreadUpdated(title));
    } else if !e.ThreadUpdated? {
      AppendKeepsOrder(published, e);
    }
  }

  lemma AppendKeepsOrder(published: seq<Envelope>, e: AgentEvent)
    requires InOrder(published) && (e.ThreadUpdated? <==> HasTerminal(published))
    ensures InOrder(published + [Envelope(|published| + 1, e)])
  {
    var more := published + [Envelope(|published| + 1, e)];
    forall j | 0 <= j < |more| && more[j].event.ThreadUpdated?
      ensures exists i :: 0 <= i < j && more[i].event.Terminal?
    {
      if j < |published| {
        var i :| 0 <= i < j && published[i].event.Terminal?;
        assert more[i].event.Terminal?;
      } else {
        var i :| 0 <= i < |published| && published[i].event.Terminal?;
        assert more[i].event.Terminal?;
      }
    }
  }

  lemma TerminalGrows(published: seq<Envelope>, e: Envelope)
    ensures HasTerminal(published + [e]) <==> HasTerminal(published) || e.event.Terminal?
    ensures ToolEventsOf(published + [e]) == ToolEventsOf(published) + (if e.event.ToolActivity? then [e.event] else [])
  {
    var more := published + [e];
    assert more[..|published|] == published;
    if HasTerminal(published) {
      var i :| 0 <= i < |published| && published[i].event.Terminal?;
      assert more[i].event.Terminal?;
    }
    assert more[|published|] == e;
  }

  class TurnEventEmitter {
    var sequence: nat
    var terminalEmitted: bool
    var toolEvents: seq<AgentEvent>
    var published: seq<Envelope>

    constructor ()
      ensures Valid() && published == []
    {
      sequence, terminalEmitted, toolEvents, published := 0, false, [], [];
    }

    ghost predicate Valid()
      reads this
    {
      && InOrder(published)
      && sequence == |published|
      && (terminalEmitted <==> HasTerminal(published))
      && toolEvents == ToolEventsOf(published)
    }

    method Emit(event: AgentEvent)
      requires Valid()
      modifies this
      ensures Valid() && published == Emitted(old(published), event)
    {
      if RuntimeOwned(event) || terminalEmitted {
        return;
      }
      Publish(event);
    }

    method EmitTerminal(event: AgentEvent)
      requires Valid()
      modifies this
      ensures Valid() && published == EmittedTerminal(old(published), event)
    {
      if terminalEmitted || !event.Terminal? {
        return;
      }
      terminalEmitted := true;
      Publish(event);
    }

    method EmitThreadUpdated(title: string)
      requires Valid()
      modifies this
      ensures Valid() && published == EmittedTitle(old(published), title)
    {
      if !terminalEmitted {
        return;
      }
      Publish(ThreadUpdated(title));
    }

    method Publish(event: AgentEvent)
      requires InOrder(published) && sequence == |published| && toolEvents == ToolEventsOf(published)
      requires event.ThreadUpdated? <==> HasTerminal(published)
      requires terminalEmitted <==> HasTerminal(published) || event.Terminal?
      modifies this
      ensures Valid() && published == old(published) + [Envelope(|old(published)| + 1, event)]
    {
      AppendKeepsOrder(published, event);
      TerminalGrows(published, Envelope(sequence + 1, event));
      if event.ToolActivity? {
        toolEvents := toolEvents + [event];
      }
      sequence := sequence + 1;
      published := published + [Envelope(sequence, event)];
    }
  }
}
