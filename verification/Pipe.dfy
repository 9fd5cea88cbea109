/** What a sensor writes to the pipe the framework reads. */
module Pipe {
  datatype PipeEvent = SampleEvent(timestamp: int) | FlushEvent(handle: int)
}
