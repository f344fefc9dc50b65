/** The notification as it arrives (`validateSourceEvent` of `internal/earnings/source_events.go`):
    texts, of which identifiers, timestamps and dates may fail to parse. */
module SourceMessages {
  import opened Wrappers
  import opened Dates
  import opened Ranking
  import opened Ledger
  import opened PaymentText
  import opened EventPlan

  const EVENT_TYPE := "earnings.source.changed"
  const SCHEMA_VERSION := 1
  const MAX_EVENT_ID := 200

  /** A field that must parse is none when it does not; `actor` may also be missing. */
  datatype SourceMessage = SourceMessage(
    eventId: string, eventType: string, schemaVersion: int, sourceType: string,
    sourceId: Option<Id>, sourceVersion: Option<int>, office: Option<Id>, serviceDate: Option<DateKey>,
    occurredAt: Option<int>, actorGiven: bool, actor: Option<Id>)

  /** `len` counts bytes; a Latin-1 character beyond ASCII takes two in UTF-8. */
  function ByteLength(s: string): nat {
    if s == [] then 0 else ByteLength(s[..|s| - 1]) + if s[|s| - 1] <= '\U{007F}' then 1 else 2
  }

  predicate Acceptable(r: SourceMessage) {
    && Trim(r.eventId) != "" && ByteLength(r.eventId) <= MAX_EVENT_ID
    && r.eventType == EVENT_TYPE && r.schemaVersion == SCHEMA_VERSION
    && (r.sourceType == "order" || r.sourceType == "trip")
    && r.sourceId.Some? && r.sourceVersion.Some? && r.office.Some?
    && r.serviceDate.Some? && ValidDate(r.serviceDate.value)
    && r.occurredAt.Some? && (r.actorGiven ==> r.actor.Some?)
  }

  /** The event a message stands for; the fields of an unacceptable one are never looked at. */
  function Decoded(r: SourceMessage): SourceEvent {
    SourceEvent(Acceptable(r), r.sourceType == "order", r.sourceId.GetOr(NIL_ID), r.office.GetOr(NIL_ID),
                r.serviceDate.GetOr(EPOCH), r.sourceVersion.GetOr(0))
  }

  /** `validateSourceEvent`: the checks in their order. */
  method ValidateSourceEvent(r: SourceMessage) returns (ok: bool)
    ensures ok <==> Acceptable(r)
  {
    var id := Trim(r.eventId);
    if id == "" || ByteLength(r.eventId) > MAX_EVENT_ID {
      return false;
    }
    if r.eventType != EVENT_TYPE {
      return false;
    }
    if r.schemaVersion != SCHEMA_VERSION {
      return false;
    }
    if r.sourceType != "order" && r.sourceType != "trip" {
      return false;
    }
    if r.sourceId.None? || r.sourceVersion.None? || r.office.None? {
      return false;
    }
    if r.serviceDate.None? || !ValidDate(r.serviceDate.value) || r.occurredAt.None? {
      return false;
    }
    if r.actorGiven && r.actor.None? {
      return false;
    }
    return true;
  }
}
