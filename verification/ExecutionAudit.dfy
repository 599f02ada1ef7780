/** The audit log that keeps the first event of each id (runtime/execution_audit.py). */
module ExecutionAudit {
  import opened Base
  import opened StateMachine

  datatype Event = Event(executionId: string, from: Status, to: Status, attempt: int,
                         reason: Option<string>, correlationId: Option<string>, id: string)

  predicate Recorded(log: seq<Event>, id: string) {
    exists i :: 0 <= i < |log| && log[i].id == id
  }

  function Appended(log: seq<Event>, e: Event): seq<Event> {
    if Recorded(log, e.id) then log else log + [e]
  }

  predicate UniqueIds(log: seq<Event>) {
    forall i, j :: 0 <= i < j < |log| ==> log[i].id != log[j].id
  }

  class AuditLog {
    var events: seq<Event>

    constructor ()
      ensures events == []
    {
      events := [];
    }

    /** `digest` is the identity derived for an event that comes without one. */
    method Append(e: Event, digest: string) returns (kept: Event)
      modifies this`events
      ensures kept.id == if e.id == "" then digest else e.id
      ensures events == Appended(old(events), if e.id == "" then e.(id := digest) else e)
      ensures kept in events
      ensures if exists x :: x in old(events) && x.id == (if e.id == "" then digest else e.id) then events == old(events)
              else events == old(events) + [kept] && kept == e.(id := if e.id == "" then digest else e.id)
      ensures old(UniqueIds(events)) ==> UniqueIds(events)
    {
      var event := if e.id == "" then e.(id := digest) else e;
      for i := 0 to |events|
        invariant forall j :: 0 <= j < i ==> events[j].id != event.id
      {
        if events[i].id == event.id { return events[i]; }
      }
      events := events + [event];
      return event;
    }
  }

  /** Appending twice is appending once. */
  lemma AppendIsIdempotent(log: seq<Event>, e: Event)
    ensures Appended(Appended(log, e), e) == Appended(log, e)
    ensures Recorded(Appended(log, e), e.id)
  {
    assert Recorded(log, e.id) || (log + [e])[|log|].id == e.id;
  }
}
