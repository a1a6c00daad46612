/** What becomes of every delivery: its outcome, what is stored, and what the trail says. */
module Reception {
  import opened Models
  import opened Stores
  import opened Protocol
  import opened Worker

  predicate Malformed(d: Delivery) {
    d.eventIdHeader == None || d.eventIdHeader == Some("") || d.event == "" || d.createdAt.None?
  }

  function Said(eventId: Option<string>, what: AuditType): AuditEvent {
    AuditEvent(None, eventId, what)
  }

  /** The trail that a delivery meets once its shape was noted. */
  function Noted(db: Db, d: Delivery): seq<AuditEvent> {
    db.audit + if d.entity.nestedError then [Said(d.eventIdHeader, PayloadShapeUnexpected)] else []
  }

  lemma NotMalformed(d: Delivery)
    ensures Malformed(d) <==> d.eventIdHeader.None? || d.eventIdHeader.value == "" || d.event == "" || d.createdAt.None?
  {
    assert d.eventIdHeader.Some? ==> (d.eventIdHeader.value == "" <==> d.eventIdHeader == Some(""));
  }

  /** A delivery that is not even an event, one of no interest, one that is filtered: an entry each, and
      nothing stored. */
  lemma TurnedAway(cfg: Config, db: Db, d: Delivery)
    requires Malformed(d) || d.event !in cfg.acceptedEvents || d.entity.errorReason in cfg.filteredReasons
    ensures Ingest(cfg, db, d) ==
            if Malformed(d) then Result(db.(audit := db.audit + [Said(None, WebhookRejectedUnsupported)]), Outcome.Malformed)
            else if d.event !in cfg.acceptedEvents then
              Result(db.(audit := db.audit + [Said(d.eventIdHeader, WebhookRejectedUnsupported)]), Unsupported)
            else Result(db.(audit := Noted(db, d) + [Said(d.eventIdHeader, WebhookFiltered)]), Filtered)
  {
    NotMalformed(d);
    var th := IngestThread(cfg, d);
    if |th.writes| == 1 {
      RunWrites1(cfg, db, th, None, NO_ORACLE);
    } else {
      RunWrites2(cfg, db, th, None, NO_ORACLE);
    }
  }

  /** The others: the first delivery of an id is stored and gets a job, a later one is noted only. */
  lemma TakenIn(cfg: Config, db: Db, d: Delivery)
    requires !Malformed(d) && d.event in cfg.acceptedEvents && d.entity.errorReason !in cfg.filteredReasons
    ensures var id := d.eventIdHeader.value;
            Ingest(cfg, db, d) ==
            if id in db.rawEvents then
              Result(db.(audit := Noted(db, d) + [Said(Some(id), WebhookDuplicateIgnored)]), DuplicateDelivery)
            else
              Result(db.(rawEvents := db.rawEvents[id := RawEvent(d.event, d.createdAt.value, d.entity)],
                         jobs := db.jobs + (if HasJob(db.jobs, id) then [] else [Job(id, JobState.Pending, 0, None)]),
                         audit := Noted(db, d) + [Said(Some(id), WebhookReceived)]), Accepted)
  {
    NotMalformed(d);
    var id, th := d.eventIdHeader.value, IngestThread(cfg, d);
    var raw := RawEvent(d.event, d.createdAt.value, d.entity);
    var shaped := db.(audit := Noted(db, d));
    if d.entity.nestedError {
      RunFirstWrite(cfg, db, th, None, NO_ORACLE);
      assert Thread(th.writes[1..], th.main) == Thread([], RawInsert(id, raw)) && Do(db, th.writes[0]) == shaped;
    } else {
      assert db.audit + [] == db.audit;
      assert th == Thread([], RawInsert(id, raw)) && shaped == db;
    }
    assert Ingest(cfg, db, d) == RunToEnd(cfg, shaped, Thread([], RawInsert(id, raw)), None, NO_ORACLE);
    RunMain(cfg, shaped, Thread([], RawInsert(id, raw)), None, NO_ORACLE);
    if id in db.rawEvents {
      RunWrites1(cfg, shaped, AfterRaw(shaped, id), None, NO_ORACLE);
    } else {
      RunWrites2(cfg, RecordRawEvent(shaped, id, raw), AfterRaw(shaped, id), None, NO_ORACLE);
    }
  }
}
