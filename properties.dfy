/** What holds along any sequence of transactions: the status of a parcel
    only moves forward in GOOD < DAMAGED < DESTROYED, provided every requested
    status passed the client's whitelist and the parcel is not re-created.
    The counterexamples show that neither proviso can be dropped. */
module Properties {
  import opened Parcels
  import opened Ledger

  /** Every stored status is one the client allows. */
  ghost predicate StatusesKnown(s: State)
  {
    forall k :: k in s.world ==> KnownStatus(s.world[k].status)
  }

  /** Every changeStatus request in `ops` passed the client's whitelist. */
  ghost predicate Whitelisted(ops: seq<Op>)
  {
    forall i :: 0 <= i < |ops| && ops[i].SetStatus? ==> KnownStatus(ops[i].newStatus)
  }

  /** No createParcel in `ops` writes the key `id`. */
  ghost predicate NoCreateOf(ops: seq<Op>, id: string)
  {
    forall i :: 0 <= i < |ops| && ops[i].Create? ==> ops[i].id != id
  }

  lemma ApplyKeepsKnown(s: State, op: Op)
    requires StatusesKnown(s)
    requires op.SetStatus? ==> KnownStatus(op.newStatus)
    ensures StatusesKnown(Apply(s, op).state)
  {
  }

  /** Whitelisted transactions only ever store whitelisted statuses. */
  lemma {:induction false} RunKeepsKnown(s: State, ops: seq<Op>)
    requires StatusesKnown(s) && Whitelisted(ops)
    ensures StatusesKnown(Run(s, ops))
    decreases |ops|
  {
    if ops != [] {
      ApplyKeepsKnown(s, ops[0]);
      assert Whitelisted(ops[1..]) by {
        forall i | 0 <= i < |ops[1..]| && ops[1..][i].SetStatus?
          ensures KnownStatus(ops[1..][i].newStatus)
        {
          assert ops[1..][i] == ops[i + 1];
        }
      }
      RunKeepsKnown(Apply(s, ops[0]).state, ops[1..]);
    }
  }

  /** One transaction that does not re-create `id` never moves its status back. */
  lemma ApplyOneWay(s: State, op: Op, id: string)
    requires StatusesKnown(s) && id in s.world
    requires op.SetStatus? ==> KnownStatus(op.newStatus)
    requires op.Create? ==> op.id != id
    ensures StatusesKnown(Apply(s, op).state)
    ensures id in Apply(s, op).state.world
    ensures Rank(s.world[id].status) <= Rank(Apply(s, op).state.world[id].status)
  {
    ApplyKeepsKnown(s, op);
  }

  /** Along whitelisted transactions that do not re-create `id`, the parcel
      stays stored, its status never returns to GOOD once it has left it, and
      a DESTROYED parcel stays DESTROYED. */
  lemma {:induction false} RunOneWay(s: State, ops: seq<Op>, id: string)
    requires StatusesKnown(s) && id in s.world
    requires Whitelisted(ops) && NoCreateOf(ops, id)
    ensures StatusesKnown(Run(s, ops))
    ensures id in Run(s, ops).world
    ensures Rank(s.world[id].status) <= Rank(Run(s, ops).world[id].status)
    ensures s.world[id].status != Good ==> Run(s, ops).world[id].status != Good
    ensures s.world[id].status == Destroyed ==> Run(s, ops).world[id].status == Destroyed
    decreases |ops|
  {
    if ops != [] {
      ApplyOneWay(s, ops[0], id);
      var rest := ops[1..];
      assert Whitelisted(rest) && NoCreateOf(rest, id) by {
        forall i | 0 <= i < |rest|
          ensures rest[i].SetStatus? ==> KnownStatus(rest[i].newStatus)
          ensures rest[i].Create? ==> rest[i].id != id
        {
          assert rest[i] == ops[i + 1];
        }
      }
      RunOneWay(Apply(s, ops[0]).state, rest, id);
    }
  }

  /** Running `a` and then `b` is running `a + b`. */
  lemma {:induction false} RunConcat(s: State, a: seq<Op>, b: seq<Op>)
    ensures Run(s, a + b) == Run(Run(s, a), b)
    decreases |a|
  {
    if a == [] {
      assert a + b == b;
    } else {
      assert (a + b)[0] == a[0];
      assert (a + b)[1..] == a[1..] + b;
      RunConcat(Apply(s, a[0]).state, a[1..], b);
    }
  }

  /** The same one-way property between any two points of a trace: after the
      first `i` transactions and after the first `j >= i`. */
  lemma {:induction false} TraceOneWay(s: State, ops: seq<Op>, id: string, i: nat, j: nat)
    requires StatusesKnown(s) && id in s.world
    requires Whitelisted(ops) && NoCreateOf(ops, id)
    requires i <= j <= |ops|
    ensures StatusesKnown(Run(s, ops[..i])) && StatusesKnown(Run(s, ops[..j]))
    ensures id in Run(s, ops[..i]).world && id in Run(s, ops[..j]).world
    ensures Rank(Run(s, ops[..i]).world[id].status) <= Rank(Run(s, ops[..j]).world[id].status)
  {
    var prefix, middle := ops[..i], ops[i..j];
    assert Whitelisted(prefix) && NoCreateOf(prefix, id) by {
      forall k | 0 <= k < |prefix|
        ensures prefix[k].SetStatus? ==> KnownStatus(prefix[k].newStatus)
        ensures prefix[k].Create? ==> prefix[k].id != id
      {
        assert prefix[k] == ops[k];
      }
    }
    assert Whitelisted(middle) && NoCreateOf(middle, id) by {
      forall k | 0 <= k < |middle|
        ensures middle[k].SetStatus? ==> KnownStatus(middle[k].newStatus)
        ensures middle[k].Create? ==> middle[k].id != id
      {
        assert middle[k] == ops[i + k];
      }
    }
    RunOneWay(s, prefix, id);
    var mid := Run(s, prefix);
    RunOneWay(mid, middle, id);
    assert ops[..j] == prefix + middle;
    RunConcat(s, prefix, middle);
  }

  /** `ops` with every queryParcel removed. */
  function DropQueries(ops: seq<Op>): (kept: seq<Op>)
    ensures forall i :: 0 <= i < |kept| ==> !kept[i].Query?
    ensures |kept| <= |ops|
  {
    if ops == [] then []
    else if ops[0].Query? then DropQueries(ops[1..])
    else [ops[0]] + DropQueries(ops[1..])
  }

  /** queryParcel has no effect wherever it stands in a sequence of
      transactions: running the sequence is running it without its queries. */
  lemma {:induction false} QueriesChangeNothing(s: State, ops: seq<Op>)
    ensures Run(s, ops) == Run(s, DropQueries(ops))
    decreases |ops|
  {
    if ops != [] {
      if ops[0].Query? {
        QueriesChangeNothing(s, ops[1..]);
      } else {
        var tail := DropQueries(ops[1..]);
        assert ([ops[0]] + tail)[0] == ops[0];
        assert ([ops[0]] + tail)[1..] == tail;
        QueriesChangeNothing(Apply(s, ops[0]).state, ops[1..]);
      }
    }
  }

  /** Without the client's whitelist a DAMAGED parcel can be repaired: any
      unknown status is accepted, and GOOD is accepted after it. */
  lemma UnlistedStatusRepairs(s: State, id: string)
    requires id in s.world && s.world[id].status == Damaged
    ensures id in Run(s, [SetStatus(id, "REPAIRED"), SetStatus(id, Good)]).world
    ensures Run(s, [SetStatus(id, "REPAIRED"), SetStatus(id, Good)]).world[id].status == Good
  {
    var s1 := ChangeStatus(s, id, "REPAIRED").state;
    assert s1.world[id].status == "REPAIRED";
    var s2 := ChangeStatus(s1, id, Good).state;
    var ops := [SetStatus(id, "REPAIRED"), SetStatus(id, Good)];
    assert ops[1..] == [SetStatus(id, Good)];
    assert Run(s1, [SetStatus(id, Good)]) == Run(s2, []);
  }

  /** Since createParcel overwrites, creating an existing parcel again brings a
      DESTROYED parcel back as GOOD, at the Sorting Center. */
  lemma RecreateRevives(s: State, id: string, destination: string, caller: string)
    requires id in s.world && s.world[id].status == Destroyed
    ensures id in Run(s, [Create(id, destination, caller)]).world
    ensures Run(s, [Create(id, destination, caller)]).world[id] == NewParcel(id, destination, caller)
  {
    var s1 := CreateParcel(s, id, destination, caller).state;
    assert Run(s, [Create(id, destination, caller)]) == Run(s1, []);
  }

  /** There is no "already delivered" guard: every transport to the
      destination raises a Distribution event, so two raise two. */
  lemma RedeliveryRaisesAgain(s: State, id: string)
    requires id in s.world
    ensures var dest := s.world[id].destination;
            Run(s, [Move(id, dest), Move(id, dest)]).events
              == s.events + [DeliveredEvent(id), DeliveredEvent(id)]
  {
    var dest := s.world[id].destination;
    var s1 := Transport(s, id, dest).state;
    var s2 := Transport(s1, id, dest).state;
    var ops := [Move(id, dest), Move(id, dest)];
    assert ops[1..] == [Move(id, dest)];
    assert Run(s1, [Move(id, dest)]) == Run(s2, []);
  }

  /** createParcel followed by queryParcel returns the fresh record. */
  lemma CreateThenQuery(s: State, id: string, destination: string, caller: string)
    ensures QueryParcel(CreateParcel(s, id, destination, caller).state, id).result
              == Ok(Parcel("parcel", id, destination, "Sorting Center", "GOOD", caller))
  {
  }

  /** A session built from the client's usage examples: create PKG001 for
      Atlanta, move it to Nairobi (no event), then to Atlanta (an event),
      damage it, fail to repair it, destroy it, fail to repair it again. */
  lemma Walkthrough()
    ensures var s0 := CreateParcel(Init, "PKG001", "123 Main St, Atlanta", "alice").state;
            var s1 := Transport(s0, "PKG001", "456 Oak Ave, Nairobi").state;
            var r2 := Transport(s1, "PKG001", "123 Main St, Atlanta");
            var r3 := ChangeStatus(r2.state, "PKG001", Damaged);
            var r4 := ChangeStatus(r3.state, "PKG001", Good);
            var r5 := ChangeStatus(r4.state, "PKG001", Destroyed);
            var r6 := ChangeStatus(r5.state, "PKG001", Good);
            && s1.events == []
            && r2.state.events == [DeliveredEvent("PKG001")]
            && r2.result.Ok? && r2.result.value.currentAddress == "123 Main St, Atlanta"
            && r3.result.Ok?
            && r4.result == Err(CannotRepair)
            && r5.result.Ok?
            && r6.result == Err(IsDestroyed)
            && r6.state.world["PKG001"].status == Destroyed
  {
  }
}
