/** A memory of event ids that may forget, in front of the log that does not. */
module Idempotency {

  class InMemoryIdempotencyFilter {
    var keys: set<string>

    constructor ()
      ensures keys == {}
    {
      keys := {};
    }

    function Seen(eventId: string): bool
      reads this
    {
      eventId in keys
    }

    method MarkSeen(eventId: string)
      modifies this
      ensures keys == old(keys) + {eventId}
    {
      keys := keys + {eventId};
    }
  }
}
