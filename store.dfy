/** The rows the workflow reads and writes, and the database that holds the
    `signals` and `automationLogs` tables. Column names follow the two
    migrations (server/migrations/20250323-create.ts and
    20250331-add-signal-type-data.ts); server/db-schema.ts is not part of
    this model. */
module Store {
  import opened Common

  /** An automation file as the parser hands it over; its identity is `hash`. */
  datatype Automation = Automation(hash: string, fileName: string, contents: string)

  /** A row of `signals`. `signalType` is the `type` column (`'cron'` unless
      the scheduler wrote another value) and `data` its JSON payload, kept as
      text. */
  datatype Signal = Signal(id: int, createdAt: string, automationHash: string, signalType: string, data: string)

  /** One message of an LLM conversation. */
  datatype Message = Message(role: string, content: string)

  /** A row of `automationLogs`. A column the insert does not set is `None`
      (SQL NULL). `messageLog` holds the serialised transcript; the model
      keeps the message list itself, which serialisation determines one to
      one. The store-assigned `id` and the `createdAt` column are not
      modelled. */
  datatype AutomationLog = AutomationLog(
    logType: string,
    automationHash: Option<string>,
    signalId: Option<int>,
    messageLog: Option<seq<Message>>)

  class Database {
    var signals: seq<Signal>
    var automationLogs: seq<AutomationLog>

    constructor(signals: seq<Signal>, automationLogs: seq<AutomationLog>)
      ensures this.signals == signals && this.automationLogs == automationLogs
    {
      this.signals := signals;
      this.automationLogs := automationLogs;
    }
  }
}
