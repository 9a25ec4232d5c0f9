/** The server-side package's `config`: four measurement switches, extra attributes and the recorder. */
module GinConfig {
  import opened Attribute
  import opened Recording

  /** The values a configuration holds at one moment. */
  datatype Settings = Settings(
    recordInFlight: bool,
    recordSize: bool,
    recordDuration: bool,
    groupedStatus: bool,
    attributes: seq<KeyValue>,
    recorder: OtelRecorder?)

  /** `config`, whose fields the options overwrite in place. */
  class Config {
    var recordInFlight: bool
    var recordSize: bool
    var recordDuration: bool
    var groupedStatus: bool
    var attributes: seq<KeyValue>
    var recorder: OtelRecorder?

    function Current(): Settings
      reads this
    {
      Settings(recordInFlight, recordSize, recordDuration, groupedStatus, attributes, recorder)
    }

    /** defaultConfig: every measurement on, grouped status, no extra attributes, no recorder. */
    constructor Default()
      ensures recordInFlight && recordDuration && recordSize && groupedStatus
      ensures attributes == [] && recorder == null
    {
      recordInFlight, recordDuration, recordSize, groupedStatus := true, true, true, true;
      attributes, recorder := [], null;
    }
  }
}
