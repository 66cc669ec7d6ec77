/** The parcel record kept by the postal contract, the status values the
    command-line client allows, the Distribution event and the errors the
    contract raises. */
module Parcels {

  /** Constant field values written by createParcel. */
  const DocType: string := "parcel"
  const SortingCenter: string := "Sorting Center"

  /** The three status values the command-line client lets through. The
      contract itself stores whatever string it is given. */
  const Good: string := "GOOD"
  const Damaged: string := "DAMAGED"
  const Destroyed: string := "DESTROYED"

  /** Name and message of the event raised when a parcel reaches its destination. */
  const Distribution: string := "Distribution"
  const Delivered: string := "Delivered"

  /** One ledger record, as createParcel builds it and JSON keeps it. */
  datatype Parcel = Parcel(
    docType: string,
    id: string,
    destination: string,
    currentAddress: string,
    status: string,
    owner: string)

  /** An event handed to the event sink: its name and the `{id, msg}` payload. */
  datatype Event = Event(name: string, id: string, msg: string)

  /** The three errors the contract throws. */
  datatype Error =
    | NotFound(id: string)   // no record stored under the id
    | IsDestroyed            // the record's status is DESTROYED
    | CannotRepair           // DAMAGED cannot become GOOD again

  datatype Result<T> = Ok(value: T) | Err(error: Error)

  /** The message text the contract throws with each error. */
  function Message(e: Error): string
  {
    match e
    case NotFound(id) => id + " does not exist"
    case IsDestroyed => "Parcel is DESTROYED"
    case CannotRepair => "Cannot repair DAMAGED parcel"
  }

  /** The message text tells the errors apart, and a missing-parcel message
      names the parcel that was asked for. */
  lemma MessageInjective(e1: Error, e2: Error)
    ensures Message(e1) == Message(e2) ==> e1 == e2
  {
    var suffix := " does not exist";
    var m1, m2 := Message(e1), Message(e2);
    // Every missing-parcel message ends in 't'; the other two do not.
    if e1.NotFound? {
      assert m1[|m1| - 1] == 't';
      assert e1.id == m1[..|m1| - |suffix|];
    }
    if e2.NotFound? {
      assert m2[|m2| - 1] == 't';
      assert e2.id == m2[..|m2| - |suffix|];
    }
  }

  /** The record createParcel writes for a fresh parcel: it carries the
      parcel's id, destination and owner, and starts at the bottom of the
      status order. */
  function NewParcel(id: string, destination: string, owner: string): (p: Parcel)
    ensures p.id == id && p.destination == destination && p.owner == owner
    ensures p.docType == "parcel" && p.currentAddress == "Sorting Center"
    ensures KnownStatus(p.status) && Rank(p.status) == 0
  {
    Parcel(DocType, id, destination, SortingCenter, Good, owner)
  }

  /** The Distribution event transport raises for the parcel id: its payload
      names that parcel and carries the "Delivered" message. */
  function DeliveredEvent(id: string): (e: Event)
    ensures e.name == "Distribution" && e.id == id && e.msg == "Delivered"
  {
    Event(Distribution, id, Delivered)
  }

  /** The status list of the command-line client, in the client's order. */
  const ValidStatuses: seq<string> := [Good, Damaged, Destroyed]

  /** The client's whitelist: a status is accepted iff the list includes it,
      that is, iff it is one of the three status names. */
  predicate KnownStatus(s: string)
    ensures KnownStatus(s) <==> s == "GOOD" || s == "DAMAGED" || s == "DESTROYED"
  {
    s in ValidStatuses
  }

  /** The position of a known status in the one-way order GOOD < DAMAGED < DESTROYED. */
  function Rank(s: string): (r: nat)
    requires KnownStatus(s)
  {
    if s == Good then 0 else if s == Damaged then 1 else 2
  }

  /** The guard of changeStatus: a DESTROYED parcel takes no change at all, and a
      DAMAGED parcel cannot be set back to GOOD; everything else is let through.
      On the whitelisted statuses this is exactly "not yet DESTROYED and never
      down the order", i.e. the transition table
      GOOD -> any, DAMAGED -> DAMAGED | DESTROYED, DESTROYED -> none. */
  predicate Permitted(current: string, requested: string)
    ensures KnownStatus(current) && KnownStatus(requested) ==>
              (Permitted(current, requested) <==>
                 current != Destroyed && Rank(current) <= Rank(requested))
  {
    current != Destroyed && !(current == Damaged && requested == Good)
  }

  /** Off the whitelist the guard is not one-way: any unknown status may follow
      DAMAGED, and GOOD may follow any unknown status. */
  lemma PermittedOffWhitelist(other: string)
    requires !KnownStatus(other)
    ensures Permitted(Damaged, other) && Permitted(other, Good)
  {
  }
}
