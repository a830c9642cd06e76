/**
Listing a consumer's jobs page by page: on a frozen store, the pages together list every
job that must be listed exactly once, newest first.
*/
module JobListing {
  import opened Wrappers
  import opened JobStore
  import Json

  function Min(a: nat, b: nat): nat {
    if a < b then a else b
  }

  function Slice<T>(s: seq<T>, offset: nat, n: nat): seq<T> {
    s[Min(offset, |s|)..Min(offset + n, |s|)]
  }

  /** The range command of Redis: both ends inclusive, negative ones counted from the end. */
  function Range<T>(s: seq<T>, start: int, stop: int): seq<T> {
    var n := |s|;
    var first := if start >= 0 then start else if start + n >= 0 then start + n else 0;
    var last := if stop >= n then n - 1 else if stop >= 0 then stop else stop + n;
    if first > last then [] else s[first..last + 1]
  }

  /** The records that are there, in the order of the ids. */
  function Present(s: Store, ids: seq<Id>): seq<Job> {
    if ids == [] then []
    else
      var id := ids[|ids| - 1];
      Present(s, ids[..|ids| - 1]) + if id in s.jobs then [s.jobs[id].job] else []
  }

  function Page(s: Store, consumer: string, limit: nat, offset: nat): seq<Job> {
    Present(s, Slice(Ranked(Members(s, consumer)), offset, limit))
  }

  const MAX_INT64 := 0x7FFF_FFFF_FFFF_FFFF

  /** Even where the 64-bit offset+limit-1 wraps around, the range is the page asked for. */
  lemma RangeIsSlice<T>(s: seq<T>, offset: nat, limit: nat)
    requires 1 <= limit <= 100 && offset <= MAX_INT64 && |s| <= MAX_INT64 - 100
    ensures Range(s, offset, Wrap64(Wrap64(offset + limit) - 1)) == Slice(s, offset, limit)
  {
    if offset < |s| {
      assert Wrap64(Wrap64(offset + limit) - 1) == offset + limit - 1;
    }
  }

  lemma PageIsRange(s: Store, consumer: string, limit: nat, offset: nat)
    requires 1 <= limit <= 100 && offset <= MAX_INT64 && |Members(s, consumer)| <= MAX_INT64 - 100
    ensures Page(s, consumer, limit, offset) ==
      Present(s, Range(Ranked(Members(s, consumer)), offset, Wrap64(Wrap64(offset + limit) - 1)))
  {
    RankedMembers(Members(s, consumer));
    RangeIsSlice(Ranked(Members(s, consumer)), offset, limit);
  }

  /** The query parameters of `ListJobs`, as far as they parse. */
  function Limit(v: Option<int>): (r: nat)
    ensures 1 <= r <= 100
    ensures v.Some? && 1 <= v.value <= 100 ==> r == v.value
    ensures v.Some? && v.value > 100 ==> r == 100
    ensures v.None? || v.value <= 0 ==> r == 20
  {
    if v.Some? && v.value > 0 then (if v.value > 100 then 100 else v.value) else 20
  }

  function Offset(v: Option<int>): (r: nat)
    ensures v.Some? && v.value >= 0 ==> r == v.value
    ensures v.None? || v.value < 0 ==> r == 0
  {
    if v.Some? && v.value >= 0 then v.value else 0
  }

  // ---------------------------------------------------------------- walking the pages

  function Sum(limits: seq<nat>): nat {
    if limits == [] then 0 else limits[0] + Sum(limits[1..])
  }

  /** The pages a client sees that asks for `limits` jobs at a time, one page after the other. */
  function Walk(s: Store, consumer: string, limits: seq<nat>): seq<Job> {
    WalkFrom(s, Ranked(Members(s, consumer)), limits, 0)
  }

  function WalkFrom(s: Store, ids: seq<Id>, limits: seq<nat>, offset: nat): seq<Job>
    decreases |limits|
  {
    if limits == [] then []
    else Present(s, Slice(ids, offset, limits[0])) + WalkFrom(s, ids, limits[1..], offset + limits[0])
  }

  function IdsFrom(ids: seq<Id>, limits: seq<nat>, offset: nat): seq<Id>
    decreases |limits|
  {
    if limits == [] then [] else Slice(ids, offset, limits[0]) + IdsFrom(ids, limits[1..], offset + limits[0])
  }

  lemma {:induction false} PresentConcat(s: Store, a: seq<Id>, b: seq<Id>)
    ensures Present(s, a + b) == Present(s, a) + Present(s, b)
  {
    if b == [] {
      assert a + b == a;
    } else {
      var init := b[..|b| - 1];
      PresentConcat(s, a, init);
      assert (a + b)[..|a + b| - 1] == a + init;
    }
  }

  lemma SliceConcat<T>(s: seq<T>, offset: nat, m: nat, n: nat)
    ensures Slice(s, offset, m) + Slice(s, offset + m, n) == Slice(s, offset, m + n)
  {
  }

  lemma {:induction false} IdsFromIsSlice(ids: seq<Id>, limits: seq<nat>, offset: nat)
    ensures IdsFrom(ids, limits, offset) == Slice(ids, offset, Sum(limits))
    decreases |limits|
  {
    if limits == [] {
      assert Slice(ids, offset, 0) == [];
    } else {
      IdsFromIsSlice(ids, limits[1..], offset + limits[0]);
      SliceConcat(ids, offset, limits[0], Sum(limits[1..]));
    }
  }

  /** The pages together are the records of the ids together. */
  lemma {:induction false} WalkIsPresent(s: Store, ids: seq<Id>, limits: seq<nat>, offset: nat)
    ensures WalkFrom(s, ids, limits, offset) == Present(s, IdsFrom(ids, limits, offset))
    decreases |limits|
  {
    if limits != [] {
      WalkIsPresent(s, ids, limits[1..], offset + limits[0]);
      PresentConcat(s, Slice(ids, offset, limits[0]), IdsFrom(ids, limits[1..], offset + limits[0]));
    }
  }

  lemma WalkIsAll(s: Store, ids: seq<Id>, limits: seq<nat>)
    requires Sum(limits) >= |ids|
    ensures WalkFrom(s, ids, limits, 0) == Present(s, ids)
  {
    WalkIsPresent(s, ids, limits, 0);
    IdsFromIsSlice(ids, limits, 0);
    assert Slice(ids, 0, Sum(limits)) == ids;
  }

  ghost predicate Distinct(ids: seq<Id>) {
    forall i, j :: 0 <= i < j < |ids| ==> ids[i] != ids[j]
  }

  /** The order of a listing: by descending second of creation, and by descending id within a second. */
  predicate Precedes(j: Job, k: Job) {
    j.id != k.id && (Score(j) > Score(k) || (Score(j) == Score(k) && Json.Le(k.id, j.id)))
  }

  /** What is listed for ids of the consumer: its stored jobs among them, once each, in that order. */
  lemma {:induction false} PresentLists(s: Store, consumer: string, ids: seq<Id>, all: seq<Job>)
    requires Inv(s) && Distinct(ids) && all == Present(s, ids)
    requires forall i :: 0 <= i < |ids| ==> ids[i] in Members(s, consumer)
    requires forall i, j :: 0 <= i < j < |ids| ==> Ahead(Members(s, consumer), ids[i], ids[j])
    ensures forall k :: 0 <= k < |all| ==> Listed(s, consumer, all[k]) && all[k].id in ids
    ensures forall k, l :: 0 <= k < l < |all| ==> Precedes(all[k], all[l])
    ensures forall i :: 0 <= i < |ids| && ids[i] in s.jobs ==> s.jobs[ids[i]].job in all
    decreases |ids|
  {
    if ids != [] {
      var n := |ids| - 1;
      var init, id := ids[..n], ids[n];
      var before := Present(s, init);
      assert forall i :: 0 <= i < n ==> init[i] == ids[i];
      PresentLists(s, consumer, init, before);
      if id in s.jobs {
        MemberListed(s, consumer, id);
        forall k | 0 <= k < |before| ensures Precedes(before[k], s.jobs[id].job) {
          EarlierPrecedes(s, consumer, ids, before[k], id);
        }
      }
    }
  }

  ghost predicate Listed(s: Store, consumer: string, j: Job) {
    j.id in s.jobs && s.jobs[j.id].job == j && j.consumer == consumer
  }

  lemma MemberListed(s: Store, consumer: string, id: Id)
    requires Inv(s) && id in Members(s, consumer) && id in s.jobs
    ensures var j := s.jobs[id].job;
      Listed(s, consumer, j) && j.id == id && Members(s, consumer)[id] == Score(j)
  {
    assert IndexOk(s, consumer) && RecordOk(s, id);
  }

  lemma EarlierPrecedes(s: Store, consumer: string, ids: seq<Id>, j: Job, id: Id)
    requires Inv(s) && Distinct(ids) && ids != [] && ids[|ids| - 1] == id && id in s.jobs
    requires forall i :: 0 <= i < |ids| ==> ids[i] in Members(s, consumer)
    requires forall i, j :: 0 <= i < j < |ids| ==> Ahead(Members(s, consumer), ids[i], ids[j])
    requires Listed(s, consumer, j) && j.id in ids[..|ids| - 1]
    ensures Precedes(j, s.jobs[id].job)
  {
    var i :| 0 <= i < |ids| - 1 && ids[i] == j.id;
    MemberListed(s, consumer, id);
    MemberListed(s, consumer, j.id);
  }

  /**
  After any run, on the store frozen then, the pages together, whatever their limits, list
  stored jobs of the consumer only, each once, by descending second and then id, and among
  them exactly those whose index, as it was last renewed with them, has not expired: all
  that are within their time to live since creation, and maybe more.
  */
  lemma PagesListEveryJob(ttl: int, ops: seq<Op>, consumer: string, limits: seq<nat>)
    requires ttl > 0 && consumer != ""
    requires Sum(limits) >= |Members(Run(New(ttl), ops), consumer)|
    ensures var s := Run(New(ttl), ops);
      var all := Walk(s, consumer, limits);
      && (forall k :: 0 <= k < |all| ==> Listed(s, consumer, all[k]))
      && (forall k, l :: 0 <= k < l < |all| ==> Precedes(all[k], all[l]))
      && (forall id :: id in s.jobs && s.jobs[id].job.consumer == consumer ==>
            && id in s.kept && s.jobs[id].job.created + s.ttl <= s.kept[id]
            && (s.jobs[id].job in all <==> s.now < s.kept[id]))
  {
    var s := Run(New(ttl), ops);
    RunInv(New(ttl), ops);
    WalkInOrder(s, consumer, limits);
    var all := Walk(s, consumer, limits);
    forall id | id in s.jobs && s.jobs[id].job.consumer == consumer
      ensures id in s.kept && s.jobs[id].job.created + s.ttl <= s.kept[id]
      ensures s.jobs[id].job in all <==> s.now < s.kept[id]
    {
      assert Kept(s, id) && RecordOk(s, id);
    }
  }

  /** The walk lists the stored jobs of the index in order. */
  lemma WalkInOrder(s: Store, consumer: string, limits: seq<nat>)
    requires Inv(s) && Sum(limits) >= |Members(s, consumer)|
    ensures var all := Walk(s, consumer, limits);
      && (forall k :: 0 <= k < |all| ==> Listed(s, consumer, all[k]) && all[k].id in Members(s, consumer))
      && (forall k, l :: 0 <= k < l < |all| ==> Precedes(all[k], all[l]))
      && (forall id :: id in Members(s, consumer) && id in s.jobs ==> s.jobs[id].job in all)
  {
    var m := Members(s, consumer);
    var ids := Ranked(m);
    RankedMembers(m);
    RankedDescends(m);
    WalkIsAll(s, ids, limits);
    var all := Walk(s, consumer, limits);
    PresentLists(s, consumer, ids, all);
    forall id | id in m && id in s.jobs ensures s.jobs[id].job in all {
      var i :| 0 <= i < |ids| && ids[i] == id;
    }
  }

  /** Every job is listed before the jobs created earlier. */
  ghost predicate NewestFirst(all: seq<Job>) {
    forall k, l :: 0 <= k < l < |all| ==> all[k].created >= all[l].created
  }

  /** Of two listed jobs created within one second, the newer has the greater id. */
  ghost predicate IdsFollowTime(all: seq<Job>) {
    forall j, k | j in all && k in all && Score(j) == Score(k) && j.created > k.created :: Json.Le(k.id, j.id)
  }

  /** A listing is newest first exactly when the ids of jobs created within one second grow with time. */
  lemma NewestFirstIff(s: Store, consumer: string, limits: seq<nat>)
    requires Inv(s) && Sum(limits) >= |Members(s, consumer)|
    ensures NewestFirst(Walk(s, consumer, limits)) <==> IdsFollowTime(Walk(s, consumer, limits))
  {
    WalkInOrder(s, consumer, limits);
    InOrderNewestFirst(Walk(s, consumer, limits));
  }

  lemma InOrderNewestFirst(all: seq<Job>)
    requires forall k, l :: 0 <= k < l < |all| ==> Precedes(all[k], all[l])
    ensures NewestFirst(all) <==> IdsFollowTime(all)
  {
    if IdsFollowTime(all) {
      forall k, l | 0 <= k < l < |all| ensures all[k].created >= all[l].created {
        assert Precedes(all[k], all[l]);
        Json.LeTotal(all[k].id, all[l].id);
      }
    }
    if NewestFirst(all) {
      forall j, k | j in all && k in all && Score(j) == Score(k) && j.created > k.created ensures Json.Le(k.id, j.id) {
        var a :| 0 <= a < |all| && all[a] == j;
        var b :| 0 <= b < |all| && all[b] == k;
        assert Precedes(all[a], all[b]);
      }
    }
  }

  // ---------------------------------------------------------------- stale ids

  /** A page without the jobs of one id. */
  function Without(js: seq<Job>, id: Id): seq<Job> {
    if js == [] then []
    else Without(js[..|js| - 1], id) + if js[|js| - 1].id == id then [] else [js[|js| - 1]]
  }

  /** A record that expires before its index entry leaves a gap in its own page and shifts no other job. */
  lemma StaleNeverShifts(s: Store, consumer: string, limit: nat, offset: nat, id: Id)
    requires Inv(s)
    ensures Page(s.(jobs := s.jobs - {id}), consumer, limit, offset) == Without(Page(s, consumer, limit, offset), id)
  {
    PresentWithout(s, Slice(Ranked(Members(s, consumer)), offset, limit), id);
  }

  lemma WithoutAppend(js: seq<Job>, j: Job, id: Id)
    ensures Without(js + [j], id) == Without(js, id) + if j.id == id then [] else [j]
  {
    assert (js + [j])[..|js|] == js;
  }

  lemma {:induction false} PresentWithout(s: Store, ids: seq<Id>, id: Id)
    requires Inv(s)
    ensures Present(s.(jobs := s.jobs - {id}), ids) == Without(Present(s, ids), id)
  {
    if ids != [] {
      var init, last := ids[..|ids| - 1], ids[|ids| - 1];
      PresentWithout(s, init, id);
      if last in s.jobs {
        var j := s.jobs[last].job;
        assert RecordOk(s, last) && j.id == last;
        WithoutAppend(Present(s, init), j, id);
      } else {
        assert Present(s, init) + [] == Present(s, init);
      }
    }
  }

  // ---------------------------------------------------------------- limits of the claim

  /** Past its time to live since creation, a job updated late is stored but no longer listed. */
  lemma LateUpdateNotListed(j: Job)
    requires j.id == "a" && j.consumer == "c" && j.created == 0
    ensures var ops := [Save(j), Advance(9 * SECOND), Update("a", "completed", "r", ""), Advance(2 * SECOND)];
      var s := Run(New(10 * SECOND), ops);
      "a" in s.jobs && s.jobs["a"].job.status == "completed" && forall n, o :: Page(s, "c", n, o) == []
  {
    var ops := [Save(j), Advance(9 * SECOND), Update("a", "completed", "r", ""), Advance(2 * SECOND)];
    var ttl := 10 * SECOND;
    var index := map["c" := Index(map["a" := 0], ttl)];
    var s2 := Store(ttl, 9 * SECOND, map["a" := Stored(j, ttl)], index, map["a" := j], map["a" := ttl]);
    SavedThenWaited(j, ttl, s2);
    var done := Stored(j.(status := "completed", ref := "r", error := ""), 19 * SECOND);
    var s3 := s2.(jobs := map["a" := done]);
    assert Apply(s2, ops[2]) == s3;
    var s4 := s3.(now := 11 * SECOND, indexes := map[]);
    assert Apply(s3, ops[3]) == s4;
    RunTwo(New(ttl), ops);
    RunTwo(s2, ops[2..]);
    assert forall n, o :: Slice(Ranked(Members(s4, "c")), o, n) == [];
  }

  lemma SavedThenWaited(j: Job, ttl: int, s: Store)
    requires j.id == "a" && j.consumer == "c" && j.created == 0 && ttl == 10 * SECOND
    requires s == Store(ttl, 9 * SECOND, map["a" := Stored(j, ttl)], map["c" := Index(map["a" := 0], ttl)],
                        map["a" := j], map["a" := ttl])
    ensures Apply(Apply(New(ttl), Save(j)), Advance(9 * SECOND)) == s
  {
    assert Apply(New(ttl), Save(j)) == s.(now := 0);
  }

  lemma RunTwo(s: Store, ops: seq<Op>)
    requires |ops| >= 2
    ensures Run(s, ops) == Run(Apply(Apply(s, ops[0]), ops[1]), ops[2..])
  {
    assert ops[1..][1..] == ops[2..];
  }

  /** Within a second the id decides: the newer of two jobs can be listed after the older one. */
  lemma WithinASecondIdsDecide()
    ensures Score(Job("b", "c", 1, "", "", "")) == Score(Job("a", "c", 2, "", "", ""))
    ensures Ranked(map["b" := 0, "a" := 0]) == ["b", "a"]
  {
    var m := map["b" := 0, "a" := 0];
    RankedMembers(m);
    RankedDescends(m);
    assert |m| == |m.Keys| && m.Keys == {"a", "b"};
    assert Json.Le("a", "b") && !Json.Le("b", "a");
  }

  // ---------------------------------------------------------------- the client

  class RedisClient {
    var s: Store

    constructor (ttl: int)
      requires ttl > 0
      ensures s == New(ttl) && Inv(s)
    {
      s := New(ttl);
    }

    method SaveJob(j: Job)
      requires Inv(s) && Enabled(s, Save(j))
      modifies this
      ensures s == Saved(old(s), j) && Inv(s)
    {
      ghost var before := s;
      var expires := s.now + s.ttl;
      var indexes, kept := s.indexes, s.kept;
      if j.consumer != "" {
        var members := if j.consumer in indexes then indexes[j.consumer].members else map[];
        members := members[j.id := Score(j)];
        assert members == With(s, j);
        indexes := indexes[j.consumer := Index(members, expires)];
        kept := kept + map id | id in With(s, j) :: expires;
      }
      s := s.(jobs := s.jobs[j.id := Stored(j, expires)], indexes := indexes,
              issued := s.issued[j.id := j], kept := kept);
      assert s == Saved(before, j);
      SavedInv(before, j);
    }

    method UpdateJobResult(id: Id, status: string, ref: string, error: string) returns (ok: bool)
      requires Inv(s)
      modifies this
      ensures Inv(s) && ok == (id in old(s).jobs)
      ensures s == Apply(old(s), Update(id, status, ref, error))
    {
      if id !in s.jobs {
        return false;
      }
      ghost var before := s;
      var ttlSecs := s.ttl / SECOND;
      if ttlSecs <= 0 {
        ttlSecs := 3600;
      }
      var j := s.jobs[id].job.(status := status, ref := ref, error := error);
      s := s.(jobs := s.jobs[id := Stored(j, s.now + ttlSecs * SECOND)]);
      assert s == Updated(before, id, status, ref, error).value;
      UpdatedInv(before, id, status, ref, error);
      return true;
    }

    method DeleteJob(id: Id)
      requires Inv(s)
      modifies this
      ensures s == Deleted(old(s), id) && Inv(s)
    {
      DeletedInv(s, id);
      if id in s.jobs {
        var c := s.jobs[id].job.consumer;
        var indexes := s.indexes;
        if c != "" && c in indexes {
          indexes := indexes[c := Index(indexes[c].members - {id}, indexes[c].expires)];
        }
        s := s.(jobs := s.jobs - {id}, indexes := indexes);
      }
    }

    method ListJobsByConsumer(consumer: string, limit: nat, offset: nat) returns (jobs: seq<Job>, total: nat)
      requires 1 <= limit <= 100 && offset <= MAX_INT64 && |Members(s, consumer)| <= MAX_INT64 - 100
      ensures jobs == Page(s, consumer, limit, offset) && total == |Members(s, consumer)|
    {
      var members := if consumer in s.indexes then s.indexes[consumer].members else map[];
      total := |members|;
      PageIsRange(s, consumer, limit, offset);
      var ids := Range(Ranked(members), offset, Wrap64(Wrap64(offset + limit) - 1));
      jobs := [];
      for i := 0 to |ids|
        invariant jobs == Present(s, ids[..i])
      {
        assert ids[..i + 1][..i] == ids[..i];
        if ids[i] !in s.jobs {
          continue;
        }
        jobs := jobs + [s.jobs[ids[i]].job];
      }
      assert ids[..|ids|] == ids;
    }
  }

  /** The answers of `ListJobs`. */
  datatype Listing =
    | NotImplemented
    | BadRequest
    | ServerError
    | Listing(total: nat, limit: nat, offset: nat, jobs: seq<Job>)

  class JobHandler {
    const redis: RedisClient
    const consumerHeader: string

    constructor (redis: RedisClient, consumerHeader: string)
      ensures this.redis == redis && this.consumerHeader == consumerHeader
    {
      this.redis, this.consumerHeader := redis, consumerHeader;
    }

    /**
    `ListJobs`; consumer is the header's value, limit and offset are the parameters that
    parse, and up tells whether Redis answers.
    */
    method ListJobs(consumer: string, limit: Option<int>, offset: Option<int>, up: bool) returns (r: Listing)
      requires |Members(redis.s, consumer)| <= MAX_INT64 - 100
      requires offset.Some? ==> offset.value <= MAX_INT64
      ensures r.NotImplemented? <==> consumerHeader == ""
      ensures r.BadRequest? <==> consumerHeader != "" && consumer == ""
      ensures r.ServerError? <==> consumerHeader != "" && consumer != "" && !up
      ensures r.Listing? ==>
        && 1 <= r.limit <= 100 && (limit.Some? && 1 <= limit.value <= 100 ==> r.limit == limit.value)
        && (limit.Some? && limit.value > 100 ==> r.limit == 100)
        && (limit.None? || limit.value <= 0 ==> r.limit == 20)
        && (offset.Some? && offset.value >= 0 ==> r.offset == offset.value)
        && (offset.None? || offset.value < 0 ==> r.offset == 0)
        && r.jobs == Page(redis.s, consumer, r.limit, r.offset) && r.total == |Members(redis.s, consumer)|
    {
      if consumerHeader == "" {
        return NotImplemented;
      }
      if consumer == "" {
        return BadRequest;
      }
      if !up {
        return ServerError;
      }
      var n, skip := Limit(limit), Offset(offset);
      var jobs, total := redis.ListJobsByConsumer(consumer, n, skip);
      r := Listing(total, n, skip, jobs);
    }
  }
}
