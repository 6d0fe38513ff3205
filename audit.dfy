/** The audit trail of the `wms` tree: an append-only table of events, each
    naming who did what to which entity. */
module Audit {
  import opened Base
  import opened Text

  datatype Event = Event(ts: int, actor: String, action: String, entity: String, entityRef: String, details: String)

  /** Action or entity blank after trimming. */
  datatype AuditError = MissingActionOrEntity

  const SystemActor: String := "system"

  /** Every stored event has an action, an entity and an actor. */
  ghost predicate EventsValid(events: seq<Event>) {
    forall i :: 0 <= i < |events| ==> events[i].action != [] && events[i].entity != [] && events[i].actor != []
  }

  lemma SystemActorTrimmed()
    ensures SystemActor != [] && IsTrimmed(SystemActor)
  {
  }

  /** The actor recorded for a given one: trimmed, and "system" when blank. */
  function ActorOf(actor: String): (a: String)
    ensures a != [] && IsTrimmed(a)
    ensures TrimSpace(actor) != [] ==> a == TrimSpace(actor)
    ensures TrimSpace(actor) == [] ==> a == SystemActor
  {
    var t := TrimSpace(actor);
    if t == [] then
      SystemActorTrimmed();
      SystemActor
    else t
  }

  /** Log: all five fields trimmed, the actor defaulted, a blank action or
      entity refused; otherwise the event to append, stamped `now`. */
  function PlanLog(actor: String, action: String, entity: String, entityRef: String, details: String, now: int)
    : (r: Result<Event, AuditError>)
    ensures r.Err? <==> TrimSpace(action) == [] || TrimSpace(entity) == []
    ensures r.Ok? ==> r.value == Event(now, ActorOf(actor), TrimSpace(action), TrimSpace(entity),
                                       TrimSpace(entityRef), TrimSpace(details))
    ensures r.Ok? ==> r.value.action != [] && r.value.entity != [] && r.value.actor != []
  {
    var a := ActorOf(actor);
    var act := TrimSpace(action);
    var ent := TrimSpace(entity);
    if act == [] || ent == [] then Err(MissingActionOrEntity)
    else Ok(Event(now, a, act, ent, TrimSpace(entityRef), TrimSpace(details)))
  }

  /** Logging an event whose fields are already normalised records it as given. */
  lemma LogOfNormalised(e: Event)
    requires e.actor != [] && IsTrimmed(e.actor)
    requires e.action != [] && IsTrimmed(e.action) && e.entity != [] && IsTrimmed(e.entity)
    requires IsTrimmed(e.entityRef) && IsTrimmed(e.details)
    ensures PlanLog(e.actor, e.action, e.entity, e.entityRef, e.details, e.ts) == Ok(e)
  {
    TrimSpaceOfTrimmed(e.actor);
    TrimSpaceOfTrimmed(e.action);
    TrimSpaceOfTrimmed(e.entity);
    TrimSpaceOfTrimmed(e.entityRef);
    TrimSpaceOfTrimmed(e.details);
  }

  /** Logging is insensitive to surrounding white space. */
  lemma LogTrimInsensitive(actor: String, action: String, entity: String, entityRef: String, details: String, now: int)
    ensures PlanLog(TrimSpace(actor), TrimSpace(action), TrimSpace(entity), TrimSpace(entityRef), TrimSpace(details), now)
      == PlanLog(actor, action, entity, entityRef, details, now)
  {
    TrimSpaceIdempotent(actor);
    TrimSpaceIdempotent(action);
    TrimSpaceIdempotent(entity);
    TrimSpaceIdempotent(entityRef);
    TrimSpaceIdempotent(details);
  }

  lemma AppendKeeps(events: seq<Event>, e: Event)
    requires EventsValid(events)
    requires e.action != [] && e.entity != [] && e.actor != []
    ensures EventsValid(events + [e])
  {
    assert forall i :: 0 <= i < |events| ==> (events + [e])[i] == events[i];
  }

  class AuditService {
    var events: seq<Event>

    ghost predicate Valid()
      reads this
    {
      EventsValid(events)
    }

    constructor()
      ensures Valid() && events == []
    {
      events := [];
    }

    /** The clock reading is passed in as `now`. */
    method Log(actor: String, action: String, entity: String, entityRef: String, details: String, now: int)
      returns (err: Option<AuditError>)
      requires Valid()
      modifies this
      ensures Valid()
      ensures match PlanLog(actor, action, entity, entityRef, details, now)
        case Ok(e) => err == None && events == old(events) + [e]
        case Err(x) => err == Some(x) && events == old(events)
    {
      var r := PlanLog(actor, action, entity, entityRef, details, now);
      match r {
        case Err(x) =>
          err := Some(x);
        case Ok(e) =>
          AppendKeeps(events, e);
          events := events + [e];
          err := None;
      }
    }
  }
}
