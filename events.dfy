/** The check `main` applies to a `repository_dispatch` event before sending anything. */
module Events {
  import opened Wrappers
  import opened JsonValue

  const RequiredFields: seq<string> := ["title", "content"]

  /** The first of `fields` the payload lacks, in order; empty values are only warned about. */
  function FirstMissing(payload: map<string, Json>, fields: seq<string>): (m: Option<string>)
    ensures m.None? <==> forall i :: 0 <= i < |fields| ==> fields[i] in payload
    ensures m.Some? ==> m.value in fields && m.value !in payload
  {
    if fields == [] then None
    else if fields[0] !in payload then Some(fields[0])
    else FirstMissing(payload, fields[1..])
  }

  /** The payload `validate_event_data` checks: `client_payload`, or an empty object when it is absent. */
  function Payload(event: Json): Json
    requires event.JObj?
  {
    GetOr(event, "client_payload", JObj(map[]))
  }

  /** `validate_event_data`. */
  function ValidateEventData(event: Json): (ok: bool)
    ensures ok <==>
      (event.JObj? && Payload(event).JObj? && "title" in Payload(event).fields && "content" in Payload(event).fields)
  {
    if !event.JObj? then false
    else
      var payload := Payload(event);
      if !payload.JObj? then false
      else
        var missing := FirstMissing(payload.fields, RequiredFields);
        assert RequiredFields[0] == "title" && RequiredFields[1] == "content";
        missing.None?
  }

  /** An event without `client_payload` is rejected: the empty default lacks the title. */
  lemma AbsentPayloadRejected(fields: map<string, Json>)
    requires "client_payload" !in fields
    ensures !ValidateEventData(JObj(fields))
  {
  }

  /** Empty title and content still pass: only their presence is required. */
  lemma EmptyFieldsPass(rest: map<string, Json>)
    ensures ValidateEventData(JObj(map["client_payload" := JObj(rest["title" := JStr("")]["content" := JStr("")])]))
  {
  }

  /** The `source` field never changes the verdict, whatever its value. */
  lemma SourceIrrelevant(event: map<string, Json>, payload: map<string, Json>, source: Json)
    requires "client_payload" in event && event["client_payload"] == JObj(payload)
    ensures ValidateEventData(JObj(event)) ==
      ValidateEventData(JObj(event["client_payload" := JObj(payload["source" := source])]))
  {
  }
}
