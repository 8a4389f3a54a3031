/** Documents as sets of operations.

    An operation is named by its client and its clock. A replica holds the operations it has
    received; those whose predecessors of the same client it also holds are integrated. The state
    vector counts the integrated operations per client. */
module OpSets {

  datatype Op = Op(client: nat, clock: nat)
  type Ops = set<Op>
  type Vector = map<nat, nat>

  predicate Complete(r: Ops, op: Op) {
    forall k :: 0 <= k <= op.clock ==> Op(op.client, k) in r
  }

  function Integrated(r: Ops): Ops {
    set op | op in r && Complete(r, op)
  }

  function Entry(v: Vector, client: nat): nat {
    if client in v then v[client] else 0
  }

  predicate Below(v: Vector, op: Op) {
    op.clock < Entry(v, op.client)
  }

  /** Everything that the vector counts is held. */
  ghost predicate Under(v: Vector, r: Ops) {
    forall op: Op :: Below(v, op) ==> op in r
  }

  function From(r: Ops, k: nat): Ops {
    set op | op in r && op.clock >= k
  }

  /** The first clock of the client, from `k` on, that is missing. */
  function NextClock(r: Ops, client: nat, k: nat): (n: nat)
    ensures n >= k && Op(client, n) !in r
    ensures forall j :: k <= j < n ==> Op(client, j) in r
    decreases From(r, k)
  {
    if Op(client, k) in r then
      assert Op(client, k) in From(r, k) && Op(client, k) !in From(r, k + 1);
      NextClock(r, client, k + 1)
    else k
  }

  function VectorOf(r: Ops): Vector {
    map client | client in (set op | op in r :: op.client) :: NextClock(r, client, 0)
  }

  function Beyond(r: Ops, v: Vector): Ops {
    set op | op in r && !Below(v, op)
  }

  /** A diff against a vector holds all that is integrated beyond it. Whether it also carries
      operations that are received but not integrated is left to the library. */
  predicate IsDiff(d: Ops, r: Ops, v: Vector) {
    Beyond(Integrated(r), v) <= d <= Beyond(r, v)
  }

  /** The state vector says exactly which operations are integrated. */
  lemma VectorSummarises(r: Ops, op: Op)
    ensures Below(VectorOf(r), op) <==> op in Integrated(r)
  {
    assert op == Op(op.client, op.clock);
  }

  lemma IntegratedGrows(r: Ops, r': Ops)
    requires r <= r'
    ensures Integrated(r) <= Integrated(r')
  {
  }

  lemma IntegratedIsIntegrated(r: Ops)
    ensures Integrated(Integrated(r)) == Integrated(r)
  {
    forall op | op in Integrated(r)
      ensures Complete(Integrated(r), op)
    {
      forall k | 0 <= k <= op.clock
        ensures Op(op.client, k) in Integrated(r)
      {
        assert Complete(r, Op(op.client, k));
      }
    }
  }

  lemma UnionOfIntegrated(a: Ops, b: Ops)
    requires Integrated(a) == a && Integrated(b) == b
    ensures Integrated(a + b) == a + b
  {
    IntegratedGrows(a, a + b);
    IntegratedGrows(b, a + b);
  }

  /** Merging a diff against one's own vector integrates all that the other side has integrated. */
  lemma DiffCatchesUp(d: Ops, r: Ops, mine: Ops)
    requires IsDiff(d, r, VectorOf(mine))
    ensures Integrated(r) <= mine + d && Integrated(r) <= Integrated(mine + d)
  {
    forall op | op in Integrated(r)
      ensures op in mine + d
    {
      VectorSummarises(mine, op);
    }
    IntegratedGrows(Integrated(r), mine + d);
    IntegratedIsIntegrated(r);
  }
}
