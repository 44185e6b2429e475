/** The worker's log buffer: a text accumulator that is appended to and reset. */
module LogBuffer {

  class LogOutput {
    /** The text accumulated so far. */
    var log: string

    /** A new buffer holds no text. */
    constructor ()
      ensures log == ""
    {
      log := "";
    }

    /** `write` appends its message to the text. */
    method Write(msg: string)
      modifies this
      ensures log == old(log) + msg
    {
      log := log + msg;
    }

    /** `clear` drops all accumulated text. */
    method Clear()
      modifies this
      ensures log == ""
    {
      log := "";
    }
  }
}
