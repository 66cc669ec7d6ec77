/** The postal contract as an object: the world state is a map from parcel id
    to record and the event sink is a log that transport appends to.
    CreateParcel writes one record without reading; Transport and ChangeStatus
    read one record into a local, update that copy and write it back;
    QueryParcel only reads. Each method is proved to leave the state, and
    return the reply, of the matching function of Ledger. */
module Contract {
  import opened Parcels
  import Ledger

  class PostalContract {
    /** The key-value store: one record per parcel id. */
    var world: map<string, Parcel>
    /** Every event handed to the event sink, oldest first. */
    var events: seq<Event>

    /** The contract's state as a value. */
    function Snapshot(): (s: Ledger.State)
      reads this
    {
      Ledger.State(world, events)
    }

    /** A freshly deployed contract: no record stored, no event raised. */
    constructor ()
      ensures Snapshot() == Ledger.Init
    {
      world := map[];
      events := [];
    }

    method CreateParcel(id: string, destination: string, caller: string) returns (p: Parcel)
      modifies this
      ensures Snapshot() == Ledger.CreateParcel(old(Snapshot()), id, destination, caller).state
      ensures Ok(p) == Ledger.CreateParcel(old(Snapshot()), id, destination, caller).result
      ensures world == old(world)[id := p] && events == old(events)
    {
      p := NewParcel(id, destination, caller);
      world := world[id := p];
    }

    method Transport(id: string, newAddress: string) returns (r: Result<Parcel>)
      modifies this
      ensures Snapshot() == Ledger.Transport(old(Snapshot()), id, newAddress).state
      ensures r == Ledger.Transport(old(Snapshot()), id, newAddress).result
    {
      if id !in world {
        return Err(NotFound(id));
      }
      var parcel := world[id];
      parcel := parcel.(currentAddress := newAddress);
      if newAddress == parcel.destination {
        events := events + [DeliveredEvent(id)];
      }
      world := world[id := parcel];
      r := Ok(parcel);
    }

    method ChangeStatus(id: string, newStatus: string) returns (r: Result<Parcel>)
      modifies this
      ensures Snapshot() == Ledger.ChangeStatus(old(Snapshot()), id, newStatus).state
      ensures r == Ledger.ChangeStatus(old(Snapshot()), id, newStatus).result
    {
      if id !in world {
        return Err(NotFound(id));
      }
      var parcel := world[id];
      if parcel.status == Destroyed {
        return Err(IsDestroyed);
      }
      if parcel.status == Damaged && newStatus == Good {
        return Err(CannotRepair);
      }
      parcel := parcel.(status := newStatus);
      world := world[id := parcel];
      r := Ok(parcel);
    }

    method QueryParcel(id: string) returns (r: Result<Parcel>)
      ensures r.Ok? <==> id in world
      ensures r.Ok? ==> r.value == world[id]
      ensures r.Err? ==> r.error == NotFound(id)
      ensures Ledger.Outcome(Snapshot(), r) == Ledger.QueryParcel(Snapshot(), id)
    {
      if id !in world {
        return Err(NotFound(id));
      }
      r := Ok(world[id]);
    }
  }
}
