/** Log events and the levels at which an overloaded queue refuses them. */
module LogEvents {

  type LogLevel = int

  const LEVEL_NONE: LogLevel := -1
  const LEVEL_NON_MESSAGE: LogLevel := 0
  const LEVEL_ERROR: LogLevel := 1
  const LEVEL_WARNING: LogLevel := 2
  const LEVEL_INFO: LogLevel := 3
  const LEVEL_DEBUG: LogLevel := 4
  const LEVEL_VERBOSE: LogLevel := 5

  const DEBUG_BACKOFF := 200000
  const INFO_BACKOFF := 350000
  const WARNING_BACKOFF := 500000
  const ERROR_BACKOFF := 550000
  const MAX_QUEUE_SIZE := 600000

  datatype LogEvent = LogEvent(level: LogLevel, tenant: string, requestID: string, message: string, code: int, payload: string)

  function QueueCapacityBackoff(queueSize: int): LogLevel {
    if queueSize < DEBUG_BACKOFF then LEVEL_VERBOSE
    else if queueSize < INFO_BACKOFF then LEVEL_DEBUG
    else if queueSize < WARNING_BACKOFF then LEVEL_INFO
    else if queueSize < ERROR_BACKOFF then LEVEL_WARNING
    else if queueSize < MAX_QUEUE_SIZE then LEVEL_ERROR
    else LEVEL_NONE
  }

  predicate Refuses(queueSize: int, event: LogEvent) {
    var bL := QueueCapacityBackoff(queueSize);
    bL < event.level || (bL <= LEVEL_WARNING && event.level == LEVEL_NON_MESSAGE)
  }

  /** The size from which events of a level are refused. */
  function Room(level: LogLevel): nat
    requires LEVEL_NON_MESSAGE <= level <= LEVEL_VERBOSE
  {
    if level == LEVEL_NON_MESSAGE then 500000 else [600000, 550000, 500000, 350000, 200000][level - 1]
  }

  /** Each level has its own limit: an event is accepted exactly below it. Events above all levels
      are never accepted, and those below all levels always. */
  lemma RefusesExactly(queueSize: int, event: LogEvent)
    ensures if event.level > LEVEL_VERBOSE then Refuses(queueSize, event)
            else if event.level < LEVEL_NON_MESSAGE then !Refuses(queueSize, event)
            else Refuses(queueSize, event) <==> queueSize >= Room(event.level)
  {
  }

  /** A full queue refuses every event but those at the level below all others. */
  lemma FullRefuses(queueSize: int, event: LogEvent)
    requires event.level >= LEVEL_NONE
    ensures queueSize >= MAX_QUEUE_SIZE ==> (Refuses(queueSize, event) <==> event.level != LEVEL_NONE)
  {
  }
}
