/**
 * pkg/driver/internal/inflight.go: the set of request keys that are being worked on.
 * Both methods run under one mutex in the source, so each is one atomic step.
 */
module InFlight {
  class InFlight {
    var inFlight: map<string, bool>

    ghost predicate Holds(key: string)
      reads this
    {
      key in inFlight
    }

    constructor ()
      ensures inFlight == map[]
    {
      inFlight := map[];
    }

    // Takes the key, or reports that somebody already has it.
    method Insert(key: string) returns (ok: bool)
      modifies this
      ensures ok == !old(Holds(key))
      ensures Holds(key)
      ensures forall k :: k != key ==> Holds(k) == old(Holds(k))
      ensures !ok ==> inFlight == old(inFlight)
      ensures ok ==> inFlight - {key} == old(inFlight)
    {
      if key in inFlight {
        return false;
      }
      inFlight := inFlight[key := true];
      return true;
    }

    // Gives the key back; a key that is not held is left alone.
    method Delete(key: string)
      modifies this
      ensures !Holds(key)
      ensures inFlight == old(inFlight) - {key}
    {
      inFlight := inFlight - {key};
    }
  }
}
