# Postal tracking ledger, modelled in Dafny

The postal tracking network keeps one record per parcel in a Hyperledger
Fabric world state and exposes four chaincode transactions:

- `createParcel` builds a record and writes it under the parcel id. The record
  has docType `parcel`, the given destination, current address
  `Sorting Center`, status `GOOD`, and the caller's identity as owner. It does
  not check whether the id is already stored.
- `transport` moves a stored parcel to a new address. When the new address
  equals the destination it raises a `Distribution` event `{id, msg: "Delivered"}`.
- `changeStatus` never changes a `DESTROYED` parcel and never sets a `DAMAGED`
  parcel back to `GOOD`. Otherwise it overwrites the status.
- `queryParcel` returns the stored record.

The last three fail with `<id> does not exist` when nothing is stored under the id.

The project has four modules:

- `Parcels` (parcels.dfy): the record, the event, the errors with their
  messages, the client's status whitelist, and the changeStatus guard
  `Permitted`.
- `Ledger` (ledger.dfy): each transaction as a function from the state (the
  world-state map and the event log) to the new state and the reply. Each
  function's contract gives the transaction's full effect: which record
  changes, how it changes, that every other key is untouched, which event is
  raised, and that a failure leaves the state as it was. `Run` applies a
  sequence of transactions in order.
- `Properties` (properties.dfy): what holds along any sequence of
  transactions. A parcel's status only moves forward in GOOD < DAMAGED <
  DESTROYED. This needs two assumptions. Every requested status must pass the
  client's whitelist (cli.js checks for GOOD, DAMAGED or DESTROYED before it
  submits). And the parcel must not be created again. Counterexample lemmas
  show that each assumption is needed.
- `Contract` (contract.dfy): the contract as a class. Its `world` field is a
  `map` from id to record and its `events` field is the event log.
  `CreateParcel` writes one record without reading. `Transport` and
  `ChangeStatus` read one record into a local, update it and write it back.
  `QueryParcel` only reads. Each method is proved to leave exactly the state,
  and return exactly the reply, of the matching `Ledger` function.

Status is a plain string, as in the chaincode; only the client restricts it.

## Model

| member | source | states |
|---|---|---|
| `Parcels.MessageInjective` | chaincode/lib/postalContract.js:27-54 | the three error texts (`<id> does not exist`, `Parcel is DESTROYED`, `Cannot repair DAMAGED parcel`) tell the errors apart, and a missing-parcel text determines the id asked for |
| `Parcels.NewParcel` | chaincode/lib/postalContract.js:12-19 | the fresh record carries the given id, destination and owner, docType "parcel" and address "Sorting Center", and its status is on the whitelist at the bottom of the order |
| `Parcels.DeliveredEvent` | chaincode/lib/postalContract.js:34-37 | the event is named "Distribution" and its payload names the parcel and carries "Delivered" |
| `Parcels.KnownStatus` | application/cli.js:165-166 | a status passes the client's list iff it is GOOD, DAMAGED or DESTROYED |
| `Parcels.Permitted` | chaincode/lib/postalContract.js:53-54 | on whitelisted statuses the changeStatus guard admits exactly the moves that start from a non-DESTROYED status and do not go down GOOD < DAMAGED < DESTROYED |
| `Parcels.PermittedOffWhitelist` | chaincode/lib/postalContract.js:53-54 | the guard admits any unlisted status after DAMAGED, and GOOD after any unlisted status |
| `Ledger.CreateParcel` | chaincode/lib/postalContract.js:11-21 | never fails; the record at `id` has docType "parcel", the given id and destination, address "Sorting Center", status "GOOD" and the caller as owner; it overwrites any record already there, leaves every other key alone, is the record returned, and raises no event |
| `Ledger.Transport` | chaincode/lib/postalContract.js:24-41 | an unknown id fails with NotFound and changes nothing; otherwise it succeeds whatever the status, changes only the current address of that one record, and returns the new record; exactly one Distribution event `{id, "Delivered"}` is appended iff the new address is the destination, and none otherwise |
| `Ledger.ChangeStatus` | chaincode/lib/postalContract.js:44-58 | succeeds iff the id is stored and the guard admits the move; NotFound for an unknown id, IsDestroyed whenever the stored status is DESTROYED (any request), CannotRepair for DAMAGED to GOOD; a failure changes nothing; a success changes only that record's status, returns it and raises no event |
| `Ledger.QueryParcel` | chaincode/lib/postalContract.js:61-66 | returns the stored record iff the id is stored, NotFound otherwise, and never changes the state |
| `Properties.ApplyKeepsKnown` | application/cli.js:164-174 | one transaction with a whitelisted status request keeps every stored status on the whitelist |
| `Properties.RunKeepsKnown` | application/cli.js:164-174 | any sequence of transactions whose status requests pass the whitelist keeps every stored status on it |
| `Properties.ApplyOneWay` | chaincode/lib/postalContract.js:52-56 | one whitelisted transaction that does not re-create the parcel keeps it stored and never lowers its status |
| `Properties.RunOneWay` | chaincode/lib/postalContract.js:52-56 | along whitelisted transactions that do not re-create the parcel, it stays stored, its status never goes down, never returns to GOOD once it has left GOOD, and stays DESTROYED once DESTROYED |
| `Properties.RunConcat` | chaincode/lib/postalContract.js:11-66 | running two batches of transactions one after another is running their concatenation |
| `Properties.TraceOneWay` | chaincode/lib/postalContract.js:52-56 | the same one-way order holds between any two points of such a sequence of transactions |
| `Properties.QueriesChangeNothing` | chaincode/lib/postalContract.js:61-66 | queries placed anywhere in a sequence of transactions have no effect: the sequence leaves the same state as the sequence without its queries |
| `Properties.UnlistedStatusRepairs` | chaincode/lib/postalContract.js:53-56 | without the whitelist a DAMAGED parcel becomes GOOD again through an intermediate unlisted status, so the one-way property needs the client's check |
| `Properties.RecreateRevives` | chaincode/lib/postalContract.js:11-20 | creating a stored DESTROYED parcel again replaces it with a fresh GOOD record, so the one-way property needs "not re-created" |
| `Properties.RedeliveryRaisesAgain` | chaincode/lib/postalContract.js:33-38 | two transports to the destination raise two Distribution events; there is no "already delivered" guard |
| `Properties.CreateThenQuery` | chaincode/lib/postalContract.js:11-21 | querying a parcel right after creating it returns the fresh record |
| `Properties.Walkthrough` | application/cli.js:25-29 | a session on PKG001: no event on the way to Nairobi, one on arrival in Atlanta, DAMAGED accepted, back to GOOD refused, DESTROYED accepted, GOOD refused again |
| `Contract.PostalContract.constructor` | chaincode/lib/postalContract.js:5 | a freshly deployed contract stores no record and has raised no event |
| `Contract.PostalContract.CreateParcel` | chaincode/lib/postalContract.js:11-21 | writes the fresh record under `id` and nothing else, and returns it, as `Ledger.CreateParcel` |
| `Contract.PostalContract.Transport` | chaincode/lib/postalContract.js:24-41 | the new map, event log and reply are those of `Ledger.Transport` |
| `Contract.PostalContract.ChangeStatus` | chaincode/lib/postalContract.js:44-58 | the new map, event log and reply are those of `Ledger.ChangeStatus` |
| `Contract.PostalContract.QueryParcel` | chaincode/lib/postalContract.js:61-66 | returns the stored record iff the id is stored, NotFound otherwise, and modifies nothing |

## Left out

- Fabric's transaction context is not modelled. `getState` and `putState`
  become reads and writes of the `world` map, `setEvent` becomes an append to
  `events`, and `clientIdentity.getID()` becomes the `caller` parameter of
  createParcel.
- Endorsement, ordering, commit, and the async/await of the chaincode are not
  modelled. Each transaction is one atomic step.
- In Fabric a thrown error aborts the whole transaction. Here a failure returns
  `Err` with the state unchanged. That is the same thing, because no write
  happens before the throw.
- JSON encoding of records and event payloads is not modelled: a record is a
  datatype value. The `!parcelBytes || parcelBytes.length === 0` test becomes
  "the id is not a key of the map", since the contract never stores empty
  bytes. queryParcel returns the stored record rather than its bytes.
- initLedger is a transaction with an empty body: it can be invoked at any
  time and leaves the state as it was. It is not modelled. The constructor
  models the empty world state of a freshly deployed contract.
- The chaincode mutates the object it parsed from the stored bytes. That
  object is a fresh copy, so nothing else sees the change before `putState`.
  The model updates a local datatype value and writes it back, which has the
  same effect.
- The command-line client (argv dispatch, console output, gateway and wallet
  handling) is not modelled. Its status whitelist (application/cli.js:164-174,
  which upper-cases the status before checking and submitting it) appears only
  as the `Whitelisted` hypothesis of the trace lemmas.
- The delivery of events to the client's listener is not modelled. It is
  asynchronous and outside the contract.
- User registration and enrollment in application/registerUser.js are
  certificate-authority and wallet I/O, so they are not modelled.
- Properties.RunOneWay: the one-way status property is proved only for
  sequences that do not call createParcel on the parcel's id. createParcel
  overwrites unconditionally, so it resets any status to GOOD
  (Properties.RecreateRevives). The model keeps this behaviour as the code has
  it.
