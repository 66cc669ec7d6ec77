/** The four transactions of the postal contract as functions from the world
    state (one record per parcel id, plus the events emitted so far) to the new
    state and the transaction's reply. Each function is what one transaction
    does: one read, at most one write to a single key, at most one event. */
module Ledger {
  import opened Parcels

  /** The key-value world state and the log of emitted events. */
  datatype State = State(world: map<string, Parcel>, events: seq<Event>)

  /** What one transaction leaves behind and what it replies. */
  datatype Outcome = Outcome(state: State, result: Result<Parcel>)

  /** The world state of a freshly deployed contract: no record, no event. */
  const Init: State := State(map[], [])

  /** `w'` has the same keys as `w` and agrees with it on every key but `id`. */
  predicate OthersUnchanged(w: map<string, Parcel>, w': map<string, Parcel>, id: string)
  {
    w'.Keys == w.Keys + {id} &&
    forall k :: k in w && k != id ==> k in w' && w'[k] == w[k]
  }

  /** createParcel: builds a fresh record owned by the caller and writes it
      under `id`, overwriting whatever was stored there. It never fails. */
  function CreateParcel(s: State, id: string, destination: string, caller: string): (r: Outcome)
    ensures OthersUnchanged(s.world, r.state.world, id)
    ensures id in r.state.world
    ensures r.state.world[id].docType == "parcel"
    ensures r.state.world[id].id == id
    ensures r.state.world[id].destination == destination
    ensures r.state.world[id].currentAddress == "Sorting Center"
    ensures r.state.world[id].status == "GOOD"
    ensures r.state.world[id].owner == caller
    ensures r.result == Ok(r.state.world[id])
    ensures r.state.events == s.events
  {
    var parcel := NewParcel(id, destination, caller);
    Outcome(State(s.world[id := parcel], s.events), Ok(parcel))
  }

  /** transport: moves a stored parcel to `newAddress`, whatever its status,
      and raises one Distribution event whenever the new address is the
      parcel's destination. */
  function Transport(s: State, id: string, newAddress: string): (r: Outcome)
    ensures id !in s.world ==> r.state == s && r.result == Err(NotFound(id))
    ensures id in s.world ==>
              && r.result.Ok?
              && OthersUnchanged(s.world, r.state.world, id)
              && r.state.world[id] == s.world[id].(currentAddress := newAddress)
              && r.result.value == r.state.world[id]
    ensures id in s.world ==>
              (|r.state.events| == |s.events| + 1 <==> newAddress == s.world[id].destination)
    ensures id in s.world ==>
              |s.events| <= |r.state.events| &&
              r.state.events[..|s.events|] == s.events &&
              r.state.events[|s.events|..] <= [DeliveredEvent(id)]
  {
    if id !in s.world then Outcome(s, Err(NotFound(id)))
    else
      var parcel := s.world[id].(currentAddress := newAddress);
      var events := if newAddress == parcel.destination then s.events + [DeliveredEvent(id)] else s.events;
      Outcome(State(s.world[id := parcel], events), Ok(parcel))
  }

  /** changeStatus: refuses any change of a DESTROYED parcel and any return of
      a DAMAGED parcel to GOOD; otherwise overwrites the status field only. */
  function ChangeStatus(s: State, id: string, newStatus: string): (r: Outcome)
    ensures r.result.Ok? <==> id in s.world && Permitted(s.world[id].status, newStatus)
    ensures r.result.Err? ==> r.state == s
    ensures id !in s.world ==> r.result == Err(NotFound(id))
    ensures id in s.world && s.world[id].status == "DESTROYED" ==> r.result == Err(IsDestroyed)
    ensures id in s.world && s.world[id].status == "DAMAGED" && newStatus == "GOOD" ==>
              r.result == Err(CannotRepair)
    ensures r.result.Ok? ==>
              && OthersUnchanged(s.world, r.state.world, id)
              && r.state.world[id] == s.world[id].(status := newStatus)
              && r.result.value == r.state.world[id]
              && r.state.events == s.events
  {
    if id !in s.world then Outcome(s, Err(NotFound(id)))
    else
      var parcel := s.world[id];
      if parcel.status == Destroyed then Outcome(s, Err(IsDestroyed))
      else if parcel.status == Damaged && newStatus == Good then Outcome(s, Err(CannotRepair))
      else
        var updated := parcel.(status := newStatus);
        Outcome(State(s.world[id := updated], s.events), Ok(updated))
  }

  /** queryParcel: a read that returns the stored record and changes nothing. */
  function QueryParcel(s: State, id: string): (r: Outcome)
    ensures r.state == s
    ensures r.result.Ok? <==> id in s.world
    ensures r.result.Ok? ==> r.result.value == s.world[id]
    ensures r.result.Err? ==> r.result.error == NotFound(id)
  {
    if id !in s.world then Outcome(s, Err(NotFound(id))) else Outcome(s, Ok(s.world[id]))
  }

  /** One submitted transaction, with the arguments the client passes. */
  datatype Op =
    | Create(id: string, destination: string, caller: string)
    | Move(id: string, newAddress: string)
    | SetStatus(id: string, newStatus: string)
    | Query(id: string)

  function Apply(s: State, op: Op): (r: Outcome)
  {
    match op
    case Create(id, destination, caller) => CreateParcel(s, id, destination, caller)
    case Move(id, newAddress) => Transport(s, id, newAddress)
    case SetStatus(id, newStatus) => ChangeStatus(s, id, newStatus)
    case Query(id) => QueryParcel(s, id)
  }

  /** The state after the transactions `ops`, applied in order. */
  function Run(s: State, ops: seq<Op>): (s': State)
    decreases |ops|
  {
    if ops == [] then s else Run(Apply(s, ops[0]).state, ops[1..])
  }
}
