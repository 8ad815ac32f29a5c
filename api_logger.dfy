/**
 * The API audit logger backed by the relational store. `LogStart` opens an
 * audit entity with status "new" and makes it current; `LogError` and
 * `LogSuccess` move the current entity to "failed" or "completed". Each
 * call flushes the entity once, except that a terminal call with no current
 * entity panics and flushes nothing. Request and response payloads are values
 * of any type `P`.
 */
module ApiLogger {
  import opened Wrappers
  import opened Time
  import Persistence

  const New: string := "new"
  const Failed: string := "failed"
  const Completed: string := "completed"
  const NotCreated: string := "log is not created"

  /** The statuses this logger writes. */
  predicate IsLifecycleStatus(status: string) {
    status == New || status == Failed || status == Completed
  }

  /** A snapshot of an audit entity. */
  datatype LogRow<P> = LogRow(
    entityType: string,
    id: nat,
    logType: string,
    request: Option<P>,
    response: Option<P>,
    message: string,
    status: string,
    createdAt: Instant)

  /** A never-saved entity of the given concrete type: every field at its zero value. */
  function Blank<P>(entityType: string): LogRow<P> {
    LogRow(entityType, 0, "", None, None, "", "", 0)
  }

  /** An audit entity; `id` is 0 until the store has saved it. */
  class LogEntity<P> {
    const entityType: string
    var id: nat
    var logType: string
    var request: Option<P>
    var response: Option<P>
    var message: string
    var status: string
    var createdAt: Instant

    constructor (entityType: string)
      ensures Row() == Blank(entityType)
    {
      this.entityType := entityType;
      id, logType, request, response := 0, "", None, None;
      message, status, createdAt := "", "", 0;
    }

    function Row(): LogRow<P>
      reads this
    {
      LogRow(entityType, id, logType, request, response, message, status, createdAt)
    }
  }

  /** How a terminal call ended: the entity was flushed, or the call panicked. */
  datatype Outcome = Flushed | Panicked(reason: string)

  /** `mysqlDBLog`: a template entity and the entity of the operation in progress. */
  class MysqlLogger<P> {
    const logEntity: LogEntity<P>
    var currentLog: LogEntity?<P>

    /**
     * The current entity, if any, is of the template's concrete type and
     * carries one of the lifecycle statuses.
     */
    ghost predicate Valid()
      reads this, currentLog
    {
      currentLog != null ==>
        currentLog.entityType == logEntity.entityType && IsLifecycleStatus(currentLog.status)
    }

    /** `NewMysqlAPILogger`: no current entity yet. */
    constructor (entity: LogEntity<P>)
      ensures logEntity == entity && currentLog == null
      ensures Valid()
    {
      logEntity := entity;
      currentLog := null;
    }

    /**
     * Opens an audit entity: the template itself while it is unsaved,
     * otherwise a fresh entity of the template's type.
     */
    method LogStart(orm: Persistence.Store<LogRow<P>>, logType: string, request: P, now: Instant)
      modifies this, logEntity, orm
      ensures Valid() && currentLog != null
      ensures old(logEntity.id) == 0 ==> currentLog == logEntity
      ensures old(logEntity.id) != 0 ==>
                fresh(currentLog) && currentLog.entityType == logEntity.entityType && unchanged(logEntity)
      ensures currentLog.Row() ==
                (if old(logEntity.id) == 0 then old(logEntity.Row()) else Blank(logEntity.entityType))
                  .(logType := logType, request := Some(request), status := New, createdAt := now)
      ensures orm.rows == old(orm.rows) + [currentLog.Row()]
    {
      var entity: LogEntity<P>;
      if logEntity.id == 0 {
        entity := logEntity;
      } else {
        entity := new LogEntity(logEntity.entityType);
      }

      entity.logType := logType;
      entity.request := Some(request);
      entity.status := New;
      entity.createdAt := now;

      orm.Persist(entity.Row());

      currentLog := entity;
    }

    /** Marks the current entity failed, with a message and a response. */
    method LogError(orm: Persistence.Store<LogRow<P>>, message: string, response: P) returns (outcome: Outcome)
      modifies currentLog, orm
      ensures old(Valid()) ==> Valid()
      ensures currentLog == old(currentLog)
      ensures old(currentLog) == null ==> outcome == Panicked(NotCreated) && orm.rows == old(orm.rows)
      ensures old(currentLog) != null ==>
                && outcome == Flushed
                && currentLog.Row() == old(currentLog.Row()).(message := message, response := Some(response), status := Failed)
                && orm.rows == old(orm.rows) + [currentLog.Row()]
    {
      if currentLog == null {
        return Panicked(NotCreated);
      }

      var entity := currentLog;
      entity.message := message;
      entity.response := Some(response);
      entity.status := Failed;

      orm.Persist(entity.Row());
      return Flushed;
    }

    /** Marks the current entity completed, with a response; its message is left as it was. */
    method LogSuccess(orm: Persistence.Store<LogRow<P>>, response: P) returns (outcome: Outcome)
      modifies currentLog, orm
      ensures old(Valid()) ==> Valid()
      ensures currentLog == old(currentLog)
      ensures old(currentLog) == null ==> outcome == Panicked(NotCreated) && orm.rows == old(orm.rows)
      ensures old(currentLog) != null ==>
                && outcome == Flushed
                && currentLog.Row() == old(currentLog.Row()).(status := Completed, response := Some(response))
                && orm.rows == old(orm.rows) + [currentLog.Row()]
    {
      if currentLog == null {
        return Panicked(NotCreated);
      }

      var entity := currentLog;
      entity.status := Completed;
      entity.response := Some(response);

      orm.Persist(entity.Row());
      return Flushed;
    }
  }

  /**
   * `LogError` on a fresh logger panics and writes nothing. A panic ends the
   * caller's operation, so the scenario stops there.
   */
  method ErrorBeforeStart<P>(message: string, response: P) returns (outcome: Outcome, rows: seq<LogRow<P>>)
    ensures outcome == Panicked(NotCreated) && rows == []
  {
    var template := new LogEntity<P>("ApiLogEntity");
    var logger := new MysqlLogger(template);
    var orm := new Persistence.Store<LogRow<P>>();
    outcome := logger.LogError(orm, message, response);
    rows := orm.rows;
  }

  /** `LogSuccess` on a fresh logger panics and writes nothing. */
  method SuccessBeforeStart<P>(response: P) returns (outcome: Outcome, rows: seq<LogRow<P>>)
    ensures outcome == Panicked(NotCreated) && rows == []
  {
    var template := new LogEntity<P>("ApiLogEntity");
    var logger := new MysqlLogger(template);
    var orm := new Persistence.Store<LogRow<P>>();
    outcome := logger.LogSuccess(orm, response);
    rows := orm.rows;
  }

  /** Start then success: two rows, "new" carrying the request, then "completed" carrying the response too. */
  method StartThenSucceed<P>(logType: string, request: P, response: P, now: Instant)
    returns (outcome: Outcome, rows: seq<LogRow<P>>)
    ensures outcome == Flushed && |rows| == 2
    ensures rows[0] == Blank<P>("ApiLogEntity").(logType := logType, request := Some(request), status := New, createdAt := now)
    ensures rows[1] == rows[0].(status := Completed, response := Some(response))
  {
    var template := new LogEntity<P>("ApiLogEntity");
    var logger := new MysqlLogger(template);
    var orm := new Persistence.Store<LogRow<P>>();
    logger.LogStart(orm, logType, request, now);
    outcome := logger.LogSuccess(orm, response);
    rows := orm.rows;
  }

  /**
   * Terminal calls do not look at the status they replace: a success after a
   * failure ends "completed", and keeps the failure's message.
   */
  method FailThenSucceed<P>(logType: string, request: P, message: string, failure: P, response: P, now: Instant)
    returns (rows: seq<LogRow<P>>)
    ensures |rows| == 3
    ensures rows[1].status == Failed && rows[1].message == message && rows[1].response == Some(failure)
    ensures rows[2].status == Completed && rows[2].message == message && rows[2].response == Some(response)
    ensures rows[2].logType == logType && rows[2].request == Some(request) && rows[2].createdAt == now
  {
    var template := new LogEntity<P>("ApiLogEntity");
    var logger := new MysqlLogger(template);
    var orm := new Persistence.Store<LogRow<P>>();
    logger.LogStart(orm, logType, request, now);
    var first := logger.LogError(orm, message, failure);
    var second := logger.LogSuccess(orm, response);
    rows := orm.rows;
  }

  /**
   * A template the store has already saved is left alone: each start
   * writes a fresh entity of the same type, with id 0.
   */
  method SavedTemplateScenario<P>(logType: string, request: P, now: Instant)
    returns (template: LogRow<P>, rows: seq<LogRow<P>>)
    ensures template == Blank<P>("ApiLogEntity").(id := 7)
    ensures |rows| == 1 && rows[0] == Blank<P>("ApiLogEntity").(logType := logType, request := Some(request), status := New, createdAt := now)
  {
    var entity := new LogEntity<P>("ApiLogEntity");
    entity.id := 7;
    var logger := new MysqlLogger(entity);
    var orm := new Persistence.Store<LogRow<P>>();
    logger.LogStart(orm, logType, request, now);
    template := entity.Row();
    rows := orm.rows;
  }
}
