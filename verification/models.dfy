/** The message pushed to browser subscribers (backend/models/event.go). */
module Models {

  /** `{ "event": ..., "message": ... }`: an event name and a serialized payload. */
  datatype Event = Event(event: string, message: string)
}
