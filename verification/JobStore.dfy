/**
The job records and the per-consumer index in Redis, both with expiry, and the paged
listing of a consumer's jobs.
*/
module JobStore {
  import opened Wrappers
  import Json

  type Id = string

  /** Times are in nanoseconds. */
  const SECOND := 1_000_000_000

  datatype Job = Job(id: Id, consumer: string, created: nat, status: string, ref: string, error: string)

  datatype Stored = Stored(job: Job, expires: int)

  /** A consumer's sorted set: member ids with their scores. */
  datatype Index = Index(members: map<Id, int>, expires: int)

  /**
  `issued` remembers every job as it was saved, and `kept` the expiry of its consumer's index
  when a save last set it with the job in the index.
  */
  datatype Store = Store(
    ttl: int,
    now: int,
    jobs: map<Id, Stored>,
    indexes: map<string, Index>,
    issued: map<Id, Job>,
    kept: map<Id, int>)

  function New(ttl: int): Store {
    Store(ttl, 0, map[], map[], map[], map[])
  }

  /** The creation time in whole seconds. */
  function Score(j: Job): (r: int)
    ensures r * 1_000_000_000 <= j.created < (r + 1) * 1_000_000_000
  {
    j.created / SECOND
  }

  // ---------------------------------------------------------------- operations

  function Members(s: Store, consumer: string): map<Id, int> {
    if consumer in s.indexes then s.indexes[consumer].members else map[]
  }

  /** The members of the consumer's index once the job is in it. */
  function With(s: Store, j: Job): map<Id, int> {
    Members(s, j.consumer)[j.id := Score(j)]
  }

  /** `SaveJob`: the record, and the index of its consumer, whose expiry starts anew. */
  function Saved(s: Store, j: Job): Store {
    s.(jobs := s.jobs[j.id := Stored(j, s.now + s.ttl)],
       indexes := if j.consumer == "" then s.indexes
         else s.indexes[j.consumer := Index(With(s, j), s.now + s.ttl)],
       issued := s.issued[j.id := j],
       kept := if j.consumer == "" then s.kept else s.kept + map id | id in With(s, j) :: s.now + s.ttl)
  }

  /** The time to live an update gives: whole seconds, and an hour where that would be none. */
  function UpdateTtl(ttl: int): (r: int)
    ensures r % 1_000_000_000 == 0 && r > 0
    ensures ttl >= 1_000_000_000 ==> r <= ttl < r + 1_000_000_000
    ensures ttl < 1_000_000_000 ==> r == 3600 * 1_000_000_000
  {
    if ttl < SECOND then 3600 * SECOND else ttl / SECOND * SECOND
  }

  /** `updateJobScript`: only the record's expiry starts anew; None when there is no record. */
  function Updated(s: Store, id: Id, status: string, ref: string, error: string): Option<Store> {
    if id !in s.jobs then None
    else
      var j := s.jobs[id].job.(status := status, ref := ref, error := error);
      Some(s.(jobs := s.jobs[id := Stored(j, s.now + UpdateTtl(s.ttl))]))
  }

  /** `deleteJobScript`: the index entry goes only if the record is there to name the consumer. */
  function Deleted(s: Store, id: Id): Store {
    if id !in s.jobs then s
    else
      var c := s.jobs[id].job.consumer;
      s.(jobs := s.jobs - {id},
         indexes := if c == "" || c !in s.indexes then s.indexes
           else s.indexes[c := Index(s.indexes[c].members - {id}, s.indexes[c].expires)])
  }

  /** Time passes, and keys expire. */
  function Advanced(s: Store, t: nat): Store {
    var now := s.now + t;
    s.(now := now,
       jobs := map id | id in s.jobs && now < s.jobs[id].expires :: s.jobs[id],
       indexes := map c | c in s.indexes && now < s.indexes[c].expires :: s.indexes[c])
  }

  datatype Op =
    | Save(job: Job)
    | Update(id: Id, status: string, ref: string, error: string)
    | Delete(id: Id)
    | Advance(t: nat)

  /** Ids are fresh, and a job is saved after it was created. */
  predicate Enabled(s: Store, op: Op) {
    op.Save? ==> op.job.id !in s.issued && op.job.created <= s.now
  }

  function Apply(s: Store, op: Op): Store {
    if !Enabled(s, op) then s else
    match op
    case Save(j) => Saved(s, j)
    case Update(id, status, ref, error) => Updated(s, id, status, ref, error).GetOr(s)
    case Delete(id) => Deleted(s, id)
    case Advance(t) => Advanced(s, t)
  }

  function Run(s: Store, ops: seq<Op>): Store
    decreases |ops|
  {
    if ops == [] then s else Run(Apply(s, ops[0]), ops[1..])
  }

  // ---------------------------------------------------------------- the invariant

  ghost predicate RecordOk(s: Store, id: Id)
    requires id in s.jobs
  {
    var j := s.jobs[id].job;
    && id in s.issued
    && s.issued[id] == j.(status := s.issued[id].status, ref := s.issued[id].ref, error := s.issued[id].error)
    && j.id == id && j.created <= s.now < s.jobs[id].expires
  }

  /** A stored job with a consumer is in the index exactly until the expiry it was last kept for. */
  ghost predicate Kept(s: Store, id: Id)
    requires id in s.jobs
  {
    var j := s.jobs[id].job;
    j.consumer != "" ==>
      && id in s.kept && j.created + s.ttl <= s.kept[id]
      && (id in Members(s, j.consumer) <==> s.now < s.kept[id])
      && (id in Members(s, j.consumer) ==> s.kept[id] == s.indexes[j.consumer].expires)
  }

  ghost predicate IndexOk(s: Store, c: string)
    requires c in s.indexes
  {
    s.now < s.indexes[c].expires && forall id :: id in s.indexes[c].members ==>
      id in s.issued && s.issued[id].consumer == c && s.indexes[c].members[id] == Score(s.issued[id])
  }

  ghost predicate Inv(s: Store) {
    && s.ttl > 0
    && (forall id :: id in s.jobs ==> RecordOk(s, id) && Kept(s, id))
    && (forall c :: c in s.indexes ==> IndexOk(s, c))
  }

  lemma SavedRecord(s: Store, j: Job, id: Id)
    requires Inv(s) && Enabled(s, Save(j)) && id in Saved(s, j).jobs
    ensures RecordOk(Saved(s, j), id)
  {
    assert id != j.id ==> RecordOk(s, id);
  }

  lemma SavedKept(s: Store, j: Job, id: Id)
    requires Inv(s) && Enabled(s, Save(j)) && id in Saved(s, j).jobs
    ensures Kept(Saved(s, j), id)
  {
    if id != j.id {
      assert RecordOk(s, id) && Kept(s, id);
      assert j.consumer in s.indexes ==> IndexOk(s, j.consumer);
    }
  }

  lemma SavedInv(s: Store, j: Job)
    requires Inv(s) && Enabled(s, Save(j))
    ensures Inv(Saved(s, j))
  {
    var s' := Saved(s, j);
    forall id | id in s'.jobs ensures RecordOk(s', id) && Kept(s', id) {
      SavedRecord(s, j, id);
      SavedKept(s, j, id);
    }
    forall c | c in s'.indexes ensures IndexOk(s', c) {
      assert c in s.indexes ==> IndexOk(s, c);
    }
  }

  lemma UpdatedInv(s: Store, id: Id, status: string, ref: string, error: string)
    requires Inv(s) && id in s.jobs
    ensures Inv(Updated(s, id, status, ref, error).value)
  {
    var s' := Updated(s, id, status, ref, error).value;
    forall i | i in s'.jobs ensures RecordOk(s', i) && Kept(s', i) {
      assert RecordOk(s, i) && Kept(s, i);
    }
    forall c | c in s'.indexes ensures IndexOk(s', c) {
      assert IndexOk(s, c);
    }
  }

  lemma DeletedInv(s: Store, id: Id)
    requires Inv(s)
    ensures Inv(Deleted(s, id))
  {
    var s' := Deleted(s, id);
    forall i | i in s'.jobs ensures RecordOk(s', i) && Kept(s', i) {
      assert RecordOk(s, i) && Kept(s, i);
    }
    forall c | c in s'.indexes ensures IndexOk(s', c) {
      assert IndexOk(s, c);
    }
  }

  lemma AdvancedInv(s: Store, t: nat)
    requires Inv(s)
    ensures Inv(Advanced(s, t))
  {
    var s' := Advanced(s, t);
    forall i | i in s'.jobs ensures RecordOk(s', i) && Kept(s', i) {
      assert RecordOk(s, i) && Kept(s, i);
    }
    forall c | c in s'.indexes ensures IndexOk(s', c) {
      assert IndexOk(s, c);
    }
  }

  lemma ApplyInv(s: Store, op: Op)
    requires Inv(s)
    ensures Inv(Apply(s, op))
  {
    if Enabled(s, op) {
      match op
      case Save(j) => SavedInv(s, j);
      case Update(id, status, ref, error) =>
        if id in s.jobs {
          UpdatedInv(s, id, status, ref, error);
        }
      case Delete(id) => DeletedInv(s, id);
      case Advance(t) => AdvancedInv(s, t);
    }
  }

  lemma {:induction false} RunInv(s: Store, ops: seq<Op>)
    requires Inv(s)
    ensures Inv(Run(s, ops))
    decreases |ops|
  {
    if ops != [] {
      ApplyInv(s, ops[0]);
      RunInv(Apply(s, ops[0]), ops[1..]);
    }
  }

  // ---------------------------------------------------------------- records and indexes together

  /** Saving a job enters it into the index of its consumer, if it has one, and leaves all else as it is. */
  lemma SavedIndexed(s: Store, j: Job, c: string)
    ensures var s' := Saved(s, j);
      && j.id in s'.jobs && s'.jobs[j.id].job == j
      && (forall id :: id in s.jobs && id != j.id ==> id in s'.jobs && s'.jobs[id] == s.jobs[id])
      && (c == j.consumer != "" ==>
            && c in s'.indexes && s'.indexes[c].expires == s.now + s.ttl
            && j.id in s'.indexes[c].members && s'.indexes[c].members - {j.id} == Members(s, c) - {j.id})
      && (c != j.consumer || c == "" ==> (c in s'.indexes <==> c in s.indexes) && Members(s', c) == Members(s, c))
  {
  }

  /** Deleting a job removes its record and lists it nowhere, and leaves all else as it is. */
  lemma DeletedGone(s: Store, id: Id, c: string)
    requires Inv(s) && id in s.jobs
    ensures var s' := Deleted(s, id);
      && s'.jobs == s.jobs - {id}
      && (c != "" ==> Members(s', c) == Members(s, c) - {id})
      && (c in s'.indexes <==> c in s.indexes) && (c in s.indexes ==> s'.indexes[c].expires == s.indexes[c].expires)
  {
    assert RecordOk(s, id);
    if c in s.indexes {
      assert IndexOk(s, c);
      if c != s.jobs[id].job.consumer {
        assert id !in s.indexes[c].members;
        assert s.indexes[c].members - {id} == s.indexes[c].members;
      }
    }
  }

  // ---------------------------------------------------------------- expiry of records

  /** No operation of the run touches the record. */
  predicate Untouched(ops: seq<Op>, id: Id) {
    forall i :: 0 <= i < |ops| ==>
      && (ops[i].Save? ==> ops[i].job.id != id)
      && (ops[i].Update? ==> ops[i].id != id) && (ops[i].Delete? ==> ops[i].id != id)
  }

  lemma {:induction false} ExpiresAt(s: Store, ops: seq<Op>, id: Id)
    requires Untouched(ops, id) && (id in s.jobs ==> s.now < s.jobs[id].expires)
    ensures var s' := Run(s, ops);
      && s.now <= s'.now
      && (id in s'.jobs <==> id in s.jobs && s'.now < s.jobs[id].expires)
      && (id in s'.jobs ==> s'.jobs[id] == s.jobs[id])
    decreases |ops|
  {
    if ops != [] {
      assert Untouched(ops[1..], id);
      assert id in Apply(s, ops[0]).jobs ==> id in s.jobs && Apply(s, ops[0]).jobs[id] == s.jobs[id];
      ExpiresAt(Apply(s, ops[0]), ops[1..], id);
    }
  }

  /** A saved job that nothing touches is stored, as it was saved, exactly until its time to live has passed. */
  lemma SavedLives(s: Store, j: Job, ops: seq<Op>)
    requires Inv(s) && Enabled(s, Save(j)) && Untouched(ops, j.id)
    ensures var s' := Run(Apply(s, Save(j)), ops);
      && (j.id in s'.jobs <==> s'.now < s.now + s.ttl)
      && (j.id in s'.jobs ==> s'.jobs[j.id].job == j)
  {
    ExpiresAt(Apply(s, Save(j)), ops, j.id);
  }

  /** An update changes status, reference and error, and the record then lives for the update's time to live. */
  lemma UpdatedLives(s: Store, id: Id, status: string, ref: string, error: string, ops: seq<Op>)
    requires Inv(s) && id in s.jobs && Untouched(ops, id)
    ensures var s' := Run(Apply(s, Update(id, status, ref, error)), ops);
      && (id in s'.jobs <==> s'.now < s.now + UpdateTtl(s.ttl))
      && (id in s'.jobs ==>
            && s'.jobs[id].job.status == status && s'.jobs[id].job.ref == ref && s'.jobs[id].job.error == error
            && s'.jobs[id].job.consumer == s.jobs[id].job.consumer && s'.jobs[id].job.created == s.jobs[id].job.created)
  {
    ExpiresAt(Apply(s, Update(id, status, ref, error)), ops, id);
  }

  // ---------------------------------------------------------------- ranking

  /** The order of ZREVRANGE: by descending score, and by descending id where scores are equal. */
  predicate Ahead(m: map<Id, int>, a: Id, b: Id)
    requires a in m && b in m
  {
    m[a] > m[b] || (m[a] == m[b] && Json.Le(b, a))
  }

  predicate IsTop(m: map<Id, int>, a: Id) {
    a in m && forall b :: b in m ==> Ahead(m, a, b)
  }

  lemma AheadTotal(m: map<Id, int>, a: Id, b: Id)
    requires a in m && b in m
    ensures Ahead(m, a, b) || Ahead(m, b, a)
    ensures Ahead(m, a, b) && Ahead(m, b, a) ==> a == b
  {
    Json.LeTotal(a, b);
  }

  lemma AheadTransitive(m: map<Id, int>, a: Id, b: Id, c: Id)
    requires a in m && b in m && c in m && Ahead(m, a, b) && Ahead(m, b, c)
    ensures Ahead(m, a, c)
  {
    if m[a] == m[b] == m[c] {
      Json.LeTransitive(c, b, a);
    }
  }

  lemma {:induction false} TopExists(m: map<Id, int>)
    requires m != map[]
    ensures exists a :: IsTop(m, a)
    decreases |m|
  {
    var a :| a in m;
    AheadTotal(m, a, a);
    var rest := m - {a};
    if rest == map[] {
      assert forall b :: b in m ==> b == a || b in rest;
      assert IsTop(m, a);
    } else {
      assert |rest.Keys| == |m.Keys - {a}|;
      TopExists(rest);
      var b :| IsTop(rest, b);
      AheadTotal(m, a, b);
      if Ahead(m, a, b) {
        forall c | c in m ensures Ahead(m, a, c) {
          if c != a {
            assert Ahead(rest, b, c);
            AheadTransitive(m, a, b, c);
          }
        }
        assert IsTop(m, a);
      } else {
        forall c | c in m ensures Ahead(m, b, c) {
          assert c != a ==> Ahead(rest, b, c);
        }
        assert IsTop(m, b);
      }
    }
  }

  lemma TopUnique(m: map<Id, int>)
    ensures forall a, b :: IsTop(m, a) && IsTop(m, b) ==> a == b
  {
    forall a, b | IsTop(m, a) && IsTop(m, b) ensures a == b {
      AheadTotal(m, a, b);
    }
  }

  function Top(m: map<Id, int>): (a: Id)
    requires m != map[]
    ensures IsTop(m, a)
  {
    TopExists(m);
    TopUnique(m);
    var a :| a in m && IsTop(m, a);
    a
  }

  function Ranked(m: map<Id, int>): seq<Id>
    decreases |m|
  {
    if m == map[] then []
    else
      var a := Top(m);
      assert |(m - {a}).Keys| == |m.Keys - {a}|;
      [a] + Ranked(m - {a})
  }

  lemma {:induction false} RankedMembers(m: map<Id, int>)
    ensures |Ranked(m)| == |m|
    ensures forall i :: 0 <= i < |Ranked(m)| ==> Ranked(m)[i] in m
    ensures forall a :: a in m ==> a in Ranked(m)
    ensures forall i, j :: 0 <= i < j < |Ranked(m)| ==> Ranked(m)[i] != Ranked(m)[j]
    decreases |m|
  {
    if m != map[] {
      var a := Top(m);
      assert |(m - {a}).Keys| == |m.Keys - {a}|;
      RankedMembers(m - {a});
    }
  }

  lemma {:induction false} RankedDescends(m: map<Id, int>)
    ensures forall i :: 0 <= i < |Ranked(m)| ==> Ranked(m)[i] in m
    ensures forall i, j :: 0 <= i < j < |Ranked(m)| ==> Ahead(m, Ranked(m)[i], Ranked(m)[j])
    decreases |m|
  {
    if m != map[] {
      var a := Top(m);
      var rest := m - {a};
      assert |rest.Keys| == |m.Keys - {a}|;
      RankedDescends(rest);
      forall i, j | 0 <= i < j < |Ranked(m)| ensures Ahead(m, Ranked(m)[i], Ranked(m)[j]) {
        if i > 0 {
          assert Ahead(rest, Ranked(rest)[i - 1], Ranked(rest)[j - 1]);
        }
      }
    }
  }
}
