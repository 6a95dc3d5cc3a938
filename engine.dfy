/** ThResultSetModel (webapp/app/js/services/models/resultsets.js): the module state that keeps
    the sorted list of result sets and the layered index over it in step, the two queues fed
    by live `job` notifications, and the operations that fill them. Fetches and the socket are
    not called: what a fetch returns is passed to prepend, append or updateJobs, and what the
    engine would request is returned as a value. */
module Engine {
  import opened JsValues
  import opened Display
  import opened Index
  import opened Mapping

  /** A live `job` notification: the branch it was published for, the job id and the summary of
      the job's result set. */
  datatype JobEvent = JobEvent(branch: string, id: int, resultsetId: int, resultsetPushTimestamp: int)

  /** A call `thResultSets.getResultSets(offset, count[, ids])`. */
  datatype ResultSetsRequest = ResultSetsRequest(offset: int, count: int, ids: Option<seq<int>>)

  /** A job as the job list fetch delivers it, before it becomes an object of the model. */
  datatype FetchedJob = FetchedJob(id: int, fields: Record)

  /** One entry of the `jobsLoaded` broadcast: a platform row of a result set and the jobs
      fetched for it. `platformOrder` and `jobGroups` are the live lists of the result set and
      of the platform, given here by their owners. */
  datatype PlatformData = PlatformData(platformName: JsValue, revision: string, platformOrder: ResultSet,
                                       resultsetId: JsValue, resultsetAggregateId: string,
                                       platformOption: JsValue, jobGroups: Platform, jobs: seq<Job>)

  // ---------------------------------------------------------------------------
  // The keys a job record is filed under

  /** `rsMap[job.result_set_id]`. */
  function ResultSetKeyOf(f: Record): string
  {
    ToPropertyKey(Field(f, "result_set_id"))
  }

  /** `getPlatformKey(job.platform, job.option)`: the key getOrCreatePlatform looks up. */
  function PlatformKeyOf(f: Record): string
  {
    PlatformKey(Field(f, "platform"), Field(f, "option"))
  }

  /** `getPlatformKey(job.platform, job.platform_opt)`: the key updateJobs looks up. */
  function PlatformOptKeyOf(f: Record): string
  {
    PlatformKey(Field(f, "platform"), Field(f, "platform_opt"))
  }

  /** `plMapElement.groups[job.job_group_name]`. */
  function GroupKeyOf(f: Record): string
  {
    ToPropertyKey(Field(f, "job_group_name"))
  }

  // ---------------------------------------------------------------------------
  // Pure parts of the operations

  predicate NoDuplicates(s: seq<int>)
  {
    forall i, j | 0 <= i < j < |s| :: s[i] != s[j]
  }

  /** The jobs the index points at. */
  function JobObjects(jm: map<string, JobEntry>): set<Job>
  {
    set jk | jk in jm :: jm[jk].jobObj
  }

  /** Every element filed in `jm0` is still filed, unchanged, in `jm`. */
  predicate Retains(jm0: map<string, JobEntry>, jm: map<string, JobEntry>)
  {
    forall jk | jk in jm0 :: jk in jm && jm[jk] == jm0[jk]
  }

  /** Keeping elements twice keeps them. */
  lemma RetainsTransitive(a: map<string, JobEntry>, b: map<string, JobEntry>, c: map<string, JobEntry>)
    requires Retains(a, b) && Retains(b, c)
    ensures Retains(a, c)
  {
  }

  /** Filing a job under a key not used yet keeps every other element. */
  lemma RetainsAdd(jm: map<string, JobEntry>, jk: string, e: JobEntry)
    requires jk !in jm
    ensures Retains(jm, jm[jk := e])
  {
  }

  /** The fields of every job of a jobMap, by job key. */
  ghost function FieldsOf(jm: map<string, JobEntry>): (fm: map<string, Record>)
    reads JobObjects(jm)
    ensures fm.Keys == jm.Keys
  {
    map jk | jk in jm :: jm[jk].jobObj.fields
  }

  /** Filing one more job element adds that job's fields under its key. */
  lemma FieldsOfUpdate(jm: map<string, JobEntry>, jk: string, e: JobEntry)
    ensures FieldsOf(jm[jk := e]) == FieldsOf(jm)[jk := e.jobObj.fields]
  {
  }

  /** Every job element is filed under its own job's key. */
  predicate KeysOk(jm: map<string, JobEntry>)
  {
    forall jk | jk in jm :: jk == JobKey(jm[jk].jobObj.id)
  }

  /** A valid index files every job element under its job's key. */
  lemma IndexKeysOk(m: map<string, RsEntry>, jm: map<string, JobEntry>, displayed: seq<ResultSet>, l: Lists)
    requires IndexOk(m, jm, displayed, l)
    ensures KeysOk(jm)
  {
  }

  /** Jobs whose fields did not change give the same fields map. */
  twostate lemma FieldsOfKept(jm: map<string, JobEntry>)
    requires forall o: Job | old(allocated(o)) :: o.fields == old(o.fields)
    ensures FieldsOf(jm) == old(FieldsOf(jm))
  {
  }

  /** Changing the fields of one filed job, and of no other job, changes the fields map under
      that job's key only. */
  twostate lemma FieldsOfExtended(jm: map<string, JobEntry>, new loaded: Job)
    requires KeysOk(jm) && JobKey(loaded.id) in jm && jm[JobKey(loaded.id)].jobObj == loaded
    requires forall o | o in JobObjects(jm) && o != loaded :: o.fields == old(o.fields)
    ensures FieldsOf(jm) == old(FieldsOf(jm))[JobKey(loaded.id) := loaded.fields]
  {
    forall k | k in jm && k != JobKey(loaded.id)
      ensures FieldsOf(jm)[k] == old(FieldsOf(jm))[k]
    {
      assert jm[k].jobObj in JobObjects(jm);
    }
  }

  /** Two records of lists of one heap taken together. */
  function MergeLists(a: Lists, b: Lists): Lists
  {
    Lists(a.platforms + b.platforms, a.groups + b.groups, a.jobs + b.jobs)
  }

  /** Records of the lists of one heap agree where they overlap, so together they record
      that heap too, and each of them has only grown into the union. */
  lemma MergeCurrent(a: Lists, b: Lists)
    requires Current(a) && Current(b)
    ensures Current(MergeLists(a, b))
    ensures Grown(a, MergeLists(a, b)) && Grown(b, MergeLists(a, b))
  {
  }

  /** Recording more lists beside those of a batch keeps the batch's lists recorded. */
  lemma ClosedMerge(data: seq<ResultSet>, a: Lists, b: Lists)
    requires Closed(data, b)
    ensures Closed(data, MergeLists(a, b))
  {
  }

  /** What mapResultSets makes of the index state (`m0`, `jm0`, the two oldest markers, the
      display list `rs0` and the recorded lists `l0`) for a batch already in the list: the
      batch and everything under it is filed, the markers move down to the batch's oldest
      values, and the list is sorted; the recorded lists only grow, and cover the batch. */
  ghost predicate Mapped(data: seq<ResultSet>,
                         m0: map<string, RsEntry>, jm0: map<string, JobEntry>, ts0: int, id0: int,
                         rs0: seq<ResultSet>, l0: Lists,
                         m: map<string, RsEntry>, jm: map<string, JobEntry>, ts: int, id: int,
                         rs: seq<ResultSet>, l: Lists)
  {
    Grown(l0, l) && Closed(data, l) &&
    IndexOk(m, jm, rs, l) && SortedDesc(rs) && rs == Sort(rs0) &&
    m == m0 + RsIndex(data, l) &&
    jm == jm0 + EntriesMap(BatchJobs(data, l)) &&
    ts == Oldest(ts0, Timestamps(data)) &&
    id == Oldest(id0, JobIds(BatchJobs(data, l)))
  }

  /** The lists once a new platform `p` is pushed onto result set `r`'s list. */
  function AddPlatform(l: Lists, r: ResultSet, p: Platform): (l': Lists)
    ensures p !in l.groups ==> Grown(l, l')
    ensures l'.PlatformsOf(r) == l.PlatformsOf(r) + [p] && l'.GroupsOf(p) == []
  {
    l.(platforms := l.platforms[r := l.PlatformsOf(r) + [p]], groups := l.groups[p := []])
  }

  /** The lists once a new group `g` is pushed onto platform `p`'s list. */
  function AddGroup(l: Lists, p: Platform, g: Group): (l': Lists)
    ensures g !in l.jobs ==> Grown(l, l')
    ensures l'.GroupsOf(p) == l.GroupsOf(p) + [g] && l'.JobsOf(g) == []
  {
    l.(groups := l.groups[p := l.GroupsOf(p) + [g]], jobs := l.jobs[g := []])
  }

  /** The lists once job `j` is pushed onto group `g`'s list. */
  function AddJob(l: Lists, g: Group, j: Job): (l': Lists)
    ensures Grown(l, l')
    ensures l'.JobsOf(g) == l.JobsOf(g) + [j]
    ensures l'.platforms == l.platforms && l'.groups == l.groups && l'.jobs.Keys == l.jobs.Keys + {g}
  {
    l.(jobs := l.jobs[g := l.JobsOf(g) + [j]])
  }

  /** The lists after getOrCreatePlatform found or made `p` for result set `r`: unchanged when
      `p` was already recorded, otherwise with `p` pushed. */
  function WithPlatformLists(l: Lists, r: ResultSet, p: Platform): Lists
  {
    if p in l.groups then l else AddPlatform(l, r, p)
  }

  /** The lists after getOrCreateGroup found or made `g` on platform `p`. */
  function WithGroupLists(l: Lists, p: Platform, g: Group): Lists
  {
    if g in l.jobs then l else AddGroup(l, p, g)
  }

  /** What getOrCreateGroup does to the index state (`m0`, `l0`) for a job record `f` whose
      result set is indexed: the platform element under the job's platform key and the group
      element under its group name are the ones there, or made for new objects `p` and `g`
      pushed onto their lists. */
  ghost predicate GroupFound(f: Record, m0: map<string, RsEntry>, l0: Lists, m: map<string, RsEntry>, l: Lists)
  {
    var rk, pk, gk := ResultSetKeyOf(f), PlatformKeyOf(f), GroupKeyOf(f);
    rk in m0 && Extends(m0, m) && pk in m[rk].platforms && gk in m[rk].platforms[pk].groups &&
    var r, p := m0[rk].rsObj, m[rk].platforms[pk].plObj;
    var g := m[rk].platforms[pk].groups[gk].grpObj;
    m == WithGroup(WithPlatform(m0, rk, pk, p), rk, pk, gk, g) &&
    l == WithGroupLists(WithPlatformLists(l0, r, p), p, g)
  }

  /** getOrCreateGroup adds at most the platform and the group it returns to the recorded
      lists. */
  lemma GroupFoundKeys(f: Record, m0: map<string, RsEntry>, l0: Lists, m: map<string, RsEntry>, l: Lists)
    requires GroupFound(f, m0, l0, m, l) && m0[ResultSetKeyOf(f)].rsObj in l0.platforms
    ensures var rk, pk, gk := ResultSetKeyOf(f), PlatformKeyOf(f), GroupKeyOf(f);
      var p, g := m[rk].platforms[pk].plObj, m[rk].platforms[pk].groups[gk].grpObj;
      l.platforms.Keys == l0.platforms.Keys &&
      (forall x | x in l.groups :: x in l0.groups || x == p) &&
      (forall x | x in l.jobs :: x in l0.jobs || x == g)
  {
  }

  /** Filing one more job element points the index at that job and at no other new one. */
  lemma JobObjectsAdd(jm: map<string, JobEntry>, jk: string, e: JobEntry)
    ensures forall x | x in JobObjects(jm[jk := e]) :: x in JobObjects(jm) || x == e.jobObj
  {
  }

  /** Filing the job in the group element getOrCreateGroup returned is what updateJob does. */
  lemma GroupFoundFiled(f: Record, j: Job, m0: map<string, RsEntry>, jm0: map<string, JobEntry>, l0: Lists,
                        m: map<string, RsEntry>, l: Lists)
    requires GroupFound(f, m0, l0, m, l)
    ensures var rk, pk, gk := ResultSetKeyOf(f), PlatformKeyOf(f), GroupKeyOf(f);
      var g := m[rk].platforms[pk].groups[gk].grpObj;
      var e := JobEntry(j, g);
      JobFiled(f, j, m0, jm0, l0, WithJob(m, rk, pk, gk, JobKey(j.id), e), jm0[JobKey(j.id) := e], AddJob(l, g, j))
  {
    var rk, pk, gk := ResultSetKeyOf(f), PlatformKeyOf(f), GroupKeyOf(f);
    var g := m[rk].platforms[pk].groups[gk].grpObj;
    var m' := WithJob(m, rk, pk, gk, JobKey(j.id), JobEntry(j, g));
    ExtendsTransitive(m0, m, m');
    assert m'[rk].platforms[pk].plObj == m[rk].platforms[pk].plObj;
    assert m'[rk].platforms[pk].groups[gk].grpObj == g;
  }

  /** What updateJob does to the index state (`m0`, `jm0`, `l0`) for a job `j` with record `f`
      whose result set is indexed and whose key is not yet in jobMap: the platform and the group
      elements are found or made, the job is filed in the group element and in jobMap, and it is
      pushed onto the group's list. */
  ghost predicate JobFiled(f: Record, j: Job, m0: map<string, RsEntry>, jm0: map<string, JobEntry>, l0: Lists,
                           m: map<string, RsEntry>, jm: map<string, JobEntry>, l: Lists)
  {
    var rk, pk, gk, jk := ResultSetKeyOf(f), PlatformKeyOf(f), GroupKeyOf(f), JobKey(j.id);
    rk in m0 && Extends(m0, m) && pk in m[rk].platforms && gk in m[rk].platforms[pk].groups &&
    var r, p := m0[rk].rsObj, m[rk].platforms[pk].plObj;
    var g := m[rk].platforms[pk].groups[gk].grpObj;
    m == WithJob(WithGroup(WithPlatform(m0, rk, pk, p), rk, pk, gk, g), rk, pk, gk, jk, JobEntry(j, g)) &&
    jm == jm0[jk := JobEntry(j, g)] &&
    l == AddJob(WithGroupLists(WithPlatformLists(l0, r, p), p, g), g, j)
  }

  /** A filed job can be found under its key, both in jobMap and in its group element, and it
      is the last job of the group's list; the lists kept growing. */
  lemma JobFiledFound(f: Record, j: Job, m0: map<string, RsEntry>, jm0: map<string, JobEntry>, l0: Lists,
                      m: map<string, RsEntry>, jm: map<string, JobEntry>, l: Lists)
    requires JobFiled(f, j, m0, jm0, l0, m, jm, l)
    ensures var rk, pk, gk, jk := ResultSetKeyOf(f), PlatformKeyOf(f), GroupKeyOf(f), JobKey(j.id);
      jk in jm && jm[jk].jobObj == j &&
      jk in m[rk].platforms[pk].groups[gk].jobs && m[rk].platforms[pk].groups[gk].jobs[jk] == jm[jk] &&
      var g := jm[jk].parent;
      g == m[rk].platforms[pk].groups[gk].grpObj && |l.JobsOf(g)| > 0 && l.JobsOf(g)[|l.JobsOf(g)| - 1] == j
  {
  }

  /** The result sets prependResultSets adds: the batch walked from its end, keeping those
      strictly newer than `oldest`. */
  function NewerReversed(data: seq<ResultSet>, oldest: int): (added: seq<ResultSet>)
    ensures forall r | r in added :: r in data && r.pushTimestamp > oldest
    ensures |added| <= |data|
  {
    if data == [] then []
    else NewerReversed(data[1..], oldest) + (if data[0].pushTimestamp > oldest then [data[0]] else [])
  }

  /** Exactly the batch's result sets newer than the marker are kept. */
  lemma {:induction false} NewerReversedMembers(data: seq<ResultSet>, oldest: int)
    ensures forall r :: r in NewerReversed(data, oldest) <==> r in data && r.pushTimestamp > oldest
  {
    if data != [] {
      NewerReversedMembers(data[1..], oldest);
      assert forall r :: r in data <==> r == data[0] || r in data[1..];
    }
  }

  /** Each kept result set is kept as often as it occurs in the batch. */
  lemma {:induction false} NewerReversedCounts(data: seq<ResultSet>, oldest: int, r: ResultSet)
    requires r.pushTimestamp > oldest
    ensures multiset(NewerReversed(data, oldest))[r] == multiset(data)[r]
  {
    if data != [] {
      NewerReversedCounts(data[1..], oldest, r);
      assert data == [data[0]] + data[1..];
    }
  }

  /** When the whole batch is newer than the marker, it is added in reverse order. */
  lemma {:induction false} NewerReversedAll(data: seq<ResultSet>, oldest: int)
    requires forall i | 0 <= i < |data| :: data[i].pushTimestamp > oldest
    ensures |NewerReversed(data, oldest)| == |data|
    ensures forall i | 0 <= i < |data| :: NewerReversed(data, oldest)[i] == data[|data| - 1 - i]
  {
    if data != [] {
      var rest := NewerReversed(data[1..], oldest);
      NewerReversedAll(data[1..], oldest);
      assert NewerReversed(data, oldest) == rest + [data[0]];
      forall i | 0 <= i < |data|
        ensures (rest + [data[0]])[i] == data[|data| - 1 - i]
      {
        if i < |rest| {
          assert rest[i] == data[1..][|data| - 2 - i];
        }
      }
    }
  }

  /** A result set pushed exactly at the oldest indexed timestamp: the notification classifier
      accepts it (`>=`), yet prependResultSets drops it (`>`). */
  lemma BoundaryResultSetDropped(r: ResultSet, oldest: int, repo: string, jobId: int, rsQueue: seq<int>)
    requires r.pushTimestamp == oldest && r.id !in rsQueue
    ensures RouteJobEvent(JobEvent(repo, jobId, r.id, r.pushTimestamp), repo, oldest, false, [], rsQueue).1 ==
            rsQueue + [r.id]
    ensures NewerReversed([r], oldest) == []
  {
    assert [r][1..] == [];
  }

  /** A set marker is left alone by values all strictly above it. */
  lemma {:induction false} OldestKept(oldest: int, values: seq<int>)
    requires oldest != 0 && forall i | 0 <= i < |values| :: values[i] > oldest
    ensures Oldest(oldest, values) == oldest
  {
    if values != [] {
      OldestKept(oldest, values[..|values| - 1]);
    }
  }

  /** A list that is a permutation of `a + b` holds exactly the elements of `a` and of `b`. */
  lemma MultisetMembers(rs: seq<ResultSet>, a: seq<ResultSet>, b: seq<ResultSet>)
    requires multiset(rs) == multiset(a + b)
    ensures forall r :: r in rs <==> r in a || r in b
  {
    forall r
      ensures r in rs <==> r in a || r in b
    {
      assert r in rs <==> r in multiset(rs);
      assert r in a + b <==> r in multiset(a + b);
    }
  }

  /** Mapping a batch that was added to the display list files every result set of it and
      leaves the list a permutation of the old one with the batch. */
  lemma MappedBatchFiled(data: seq<ResultSet>,
                         m0: map<string, RsEntry>, jm0: map<string, JobEntry>, ts0: int, id0: int,
                         rs0: seq<ResultSet>, l0: Lists,
                         m: map<string, RsEntry>, jm: map<string, JobEntry>, ts: int, id: int,
                         rs: seq<ResultSet>, l: Lists)
    requires Mapped(data, m0, jm0, ts0, id0, rs0 + data, l0, m, jm, ts, id, rs, l)
    ensures multiset(rs) == multiset(rs0) + multiset(data)
    ensures forall r :: r in rs <==> r in rs0 || r in data
    ensures forall r | r in data :: RsKey(r.id) in m && m[RsKey(r.id)].rsObj.id == r.id
    ensures ts == Oldest(ts0, Timestamps(data))
  {
    assert rs == Sort(rs0 + data) && m == m0 + RsIndex(data, l);
    SortPermutes(rs0 + data);
    MultisetMembers(rs, rs0, data);
    RsIndexKeys(data, l);
    RsIndexFrom(data, l);
    forall r | r in data
      ensures RsKey(r.id) in m && m[RsKey(r.id)].rsObj.id == r.id
    {
      var e := RsIndex(data, l)[RsKey(r.id)];
      IntToStringInjective(e.rsObj.id, r.id);
    }
  }

  /** What prependResultSets leaves: exactly the result sets of the batch newer than the old
      marker are added to the display list and filed, and a marker that was set does not
      move. */
  lemma PrependFiled(data: seq<ResultSet>,
                     m0: map<string, RsEntry>, jm0: map<string, JobEntry>, ts0: int, id0: int,
                     rs0: seq<ResultSet>, l0: Lists,
                     m: map<string, RsEntry>, jm: map<string, JobEntry>, ts: int, id: int,
                     rs: seq<ResultSet>, l: Lists)
    requires var added := NewerReversed(data, ts0);
      Mapped(added, m0, jm0, ts0, id0, rs0 + added, l0, m, jm, ts, id, rs, l)
    ensures forall r :: r in rs <==> r in rs0 || (r in data && r.pushTimestamp > ts0)
    ensures forall r | r in data && r.pushTimestamp > ts0 :: RsKey(r.id) in m
    ensures ts0 != 0 ==> ts == ts0
  {
    var added := NewerReversed(data, ts0);
    MappedBatchFiled(added, m0, jm0, ts0, id0, rs0, l0, m, jm, ts, id, rs, l);
    NewerFiled(data, ts0, rs0, m, ts, rs);
  }

  /** The batch part of PrependFiled, on the facts MappedBatchFiled gives. */
  lemma NewerFiled(data: seq<ResultSet>, ts0: int, rs0: seq<ResultSet>, m: map<string, RsEntry>, ts: int,
                   rs: seq<ResultSet>)
    requires var added := NewerReversed(data, ts0);
      (forall r :: r in rs <==> r in rs0 || r in added) &&
      (forall r | r in added :: RsKey(r.id) in m) &&
      ts == Oldest(ts0, Timestamps(added))
    ensures forall r :: r in rs <==> r in rs0 || (r in data && r.pushTimestamp > ts0)
    ensures forall r | r in data && r.pushTimestamp > ts0 :: RsKey(r.id) in m
    ensures ts0 != 0 ==> ts == ts0
  {
    NewerReversedMembers(data, ts0);
    if ts0 != 0 {
      OldestKept(ts0, Timestamps(NewerReversed(data, ts0)));
    }
  }

  /** The positions of `jobs` in the order given. */
  function Pick(jobs: seq<Job>, idx: seq<nat>): (r: seq<Job>)
    requires forall k | 0 <= k < |idx| :: idx[k] < |jobs|
    ensures |r| == |idx| && forall k | 0 <= k < |idx| :: r[k] == jobs[idx[k]]
  {
    seq(|idx|, k requires 0 <= k < |idx| => jobs[idx[k]])
  }

  /** Picking positions of a list is not affected by what is appended after them. */
  lemma PickSnoc(jobs: seq<Job>, j: Job, idx: seq<nat>)
    requires forall k | 0 <= k < |idx| :: idx[k] < |jobs|
    ensures Pick(jobs + [j], idx) == Pick(jobs, idx)
  {
  }

  /** Picking one more position appends that position's job. */
  lemma PickPush(jobs: seq<Job>, idx: seq<nat>, k: nat)
    requires (forall n | 0 <= n < |idx| :: idx[n] < |jobs|) && k < |jobs|
    ensures Pick(jobs, idx + [k]) == Pick(jobs, idx) + [jobs[k]]
  {
  }

  /** The rows of the `jobsLoaded` payload, as positions in the job list: a row is opened by the
      first job of that row whose result set is indexed, and from then on every job of the row
      is added to it, whether or not its own result set is indexed. */
  function Payload(rows: seq<string>, present: seq<bool>): (p: map<string, seq<nat>>)
    requires |rows| == |present|
    ensures forall a | a in p :: forall k | 0 <= k < |p[a]| :: p[a][k] < |rows| && rows[p[a][k]] == a
    ensures forall a | a in p :: |p[a]| > 0 && present[p[a][0]]
    ensures forall a | a in p :: forall k, k' | 0 <= k < k' < |p[a]| :: p[a][k] < p[a][k']
  {
    if rows == [] then map[]
    else
      var n := |rows| - 1;
      var m := Payload(rows[..n], present[..n]);
      if rows[n] in m then m[rows[n] := m[rows[n]] + [n]]
      else if present[n] then m[rows[n] := [n]]
      else m
  }

  /** One more job extends the payload as one turn of the updateJobs loop does. */
  lemma PayloadSnoc(rows: seq<string>, present: seq<bool>, i: nat)
    requires |rows| == |present| && i < |rows|
    ensures var m := Payload(rows[..i], present[..i]);
      Payload(rows[..i + 1], present[..i + 1]) ==
        if rows[i] in m then m[rows[i] := m[rows[i]] + [i]]
        else if present[i] then m[rows[i] := [i]]
        else m
  {
    assert rows[..i + 1][..i] == rows[..i];
    assert present[..i + 1][..i] == present[..i];
  }

  /** A row is in the payload exactly when one of its jobs has an indexed result set. */
  lemma {:induction false} PayloadKeys(rows: seq<string>, present: seq<bool>)
    requires |rows| == |present|
    ensures forall a :: a in Payload(rows, present) <==> exists i | 0 <= i < |rows| :: rows[i] == a && present[i]
  {
    if rows != [] {
      var n := |rows| - 1;
      var rows', present' := rows[..n], present[..n];
      PayloadKeys(rows', present');
      var m := Payload(rows', present');
      forall a | a in m
        ensures exists i | 0 <= i < |rows| :: rows[i] == a && present[i]
      {
        var i :| 0 <= i < n && rows'[i] == a && present'[i];
        assert rows[i] == a && present[i];
      }
      forall a, i | 0 <= i < n && rows[i] == a && present[i]
        ensures a in m
      {
        assert rows'[i] == a && present'[i];
      }
    }
  }

  /** A job is in its row of the payload exactly when it comes at or after the first job of
      that row whose result set is indexed. */
  lemma {:induction false} PayloadMembers(rows: seq<string>, present: seq<bool>, i: nat)
    requires |rows| == |present| && i < |rows|
    ensures (rows[i] in Payload(rows, present) && i in Payload(rows, present)[rows[i]]) <==>
            exists k | 0 <= k <= i :: rows[k] == rows[i] && present[k]
  {
    var n := |rows| - 1;
    if i < n {
      PayloadMembers(rows[..n], present[..n], i);
      PayloadMembersEarlier(rows, present, i);
    } else {
      PayloadMembersLast(rows, present);
    }
  }

  /** The step of `PayloadMembers` for a job before the last one. */
  lemma PayloadMembersEarlier(rows: seq<string>, present: seq<bool>, i: nat)
    requires |rows| == |present| && i < |rows| - 1
    requires var rows', present' := rows[..|rows| - 1], present[..|rows| - 1];
      (rows'[i] in Payload(rows', present') && i in Payload(rows', present')[rows'[i]]) <==>
      exists k | 0 <= k <= i :: rows'[k] == rows'[i] && present'[k]
    ensures (rows[i] in Payload(rows, present) && i in Payload(rows, present)[rows[i]]) <==>
            exists k | 0 <= k <= i :: rows[k] == rows[i] && present[k]
  {
    var n := |rows| - 1;
    var rows', present' := rows[..n], present[..n];
    var m := Payload(rows', present');
    PushOtherKept(m, rows[n], present[n], n, rows[i], i);
    PrefixWitness(rows, present, n, i);
  }

  /** Adding position `n` to the row `a` of a payload leaves every other position where it was. */
  lemma PushOtherKept(m: map<string, seq<nat>>, a: string, open: bool, n: nat, x: string, i: nat)
    requires i != n
    ensures var p := if a in m then m[a := m[a] + [n]] else if open then m[a := [n]] else m;
      (x in p && i in p[x]) <==> (x in m && i in m[x])
  {
    if a in m && x == a {
      assert i in m[a] + [n] <==> i in m[a];
    }
  }

  /** A witness before position `n` is one of the prefix `..n`. */
  lemma PrefixWitness(rows: seq<string>, present: seq<bool>, n: nat, i: nat)
    requires |rows| == |present| && i < n <= |rows|
    ensures (exists k | 0 <= k <= i :: rows[k] == rows[i] && present[k]) <==>
            exists k | 0 <= k <= i :: rows[..n][k] == rows[..n][i] && present[..n][k]
  {
    if exists k | 0 <= k <= i :: rows[k] == rows[i] && present[k] {
      var k :| 0 <= k <= i && rows[k] == rows[i] && present[k];
      assert rows[..n][k] == rows[..n][i] && present[..n][k];
    }
  }

  /** The step of `PayloadMembers` for the last job. */
  lemma PayloadMembersLast(rows: seq<string>, present: seq<bool>)
    requires |rows| == |present| && 0 < |rows|
    ensures var n := |rows| - 1;
      (rows[n] in Payload(rows, present) && n in Payload(rows, present)[rows[n]]) <==>
      exists k | 0 <= k <= n :: rows[k] == rows[n] && present[k]
  {
    var n := |rows| - 1;
    var rows', present' := rows[..n], present[..n];
    PayloadKeys(rows', present');
    PushLast(Payload(rows', present'), rows[n], present[n], n);
    LastWitness(rows, present, n);
  }

  /** Position `n` lands in row `a` exactly when the row was open or is opened by it. */
  lemma PushLast(m: map<string, seq<nat>>, a: string, open: bool, n: nat)
    ensures var p := if a in m then m[a := m[a] + [n]] else if open then m[a := [n]] else m;
      (a in p && n in p[a]) <==> (a in m || open)
  {
    if a in m {
      assert (m[a] + [n])[|m[a]|] == n;
    }
  }

  /** A witness up to the last position is the last one or one of the prefix before it. */
  lemma LastWitness(rows: seq<string>, present: seq<bool>, n: nat)
    requires |rows| == |present| && n < |rows|
    ensures (exists k | 0 <= k <= n :: rows[k] == rows[n] && present[k]) <==>
            present[n] || exists k | 0 <= k < n :: rows[..n][k] == rows[n] && present[..n][k]
  {
    if exists k | 0 <= k <= n :: rows[k] == rows[n] && present[k] {
      var k :| 0 <= k <= n && rows[k] == rows[n] && present[k];
      if k < n {
        assert rows[..n][k] == rows[n] && present[..n][k];
      }
    }
    if exists k | 0 <= k < n :: rows[..n][k] == rows[n] && present[..n][k] {
      var k :| 0 <= k < n && rows[..n][k] == rows[n] && present[..n][k];
      assert rows[k] == rows[n] && present[k];
    }
  }

  /** The payload row key of each fetched job: `thAggregateIds.getPlatformRowId(repo,
      result_set_id, platform, platform_opt)`. */
  function Rows(fetched: seq<FetchedJob>, repo: string, rowId: (string, JsValue, JsValue, JsValue) -> string): (rows: seq<string>)
    ensures |rows| == |fetched|
  {
    seq(|fetched|, i requires 0 <= i < |fetched| =>
      rowId(repo, Field(fetched[i].fields, "result_set_id"), Field(fetched[i].fields, "platform"),
            Field(fetched[i].fields, "platform_opt")))
  }

  /** Whether each fetched job's result set is indexed. */
  function Present(fetched: seq<FetchedJob>, rsMap: map<string, RsEntry>): (present: seq<bool>)
    ensures |present| == |fetched|
  {
    seq(|fetched|, i requires 0 <= i < |fetched| => ResultSetKeyOf(fetched[i].fields) in rsMap)
  }

  /** A payload entry describes the platform row of job record `f` in the index `m`. */
  predicate DescribesRow(d: PlatformData, f: Record, m: map<string, RsEntry>, repo: string,
                         tableId: (string, JsValue, string) -> string)
  {
    var rk := ResultSetKeyOf(f);
    var pk := PlatformOptKeyOf(f);
    rk in m && pk in m[rk].platforms &&
    d.platformName == Field(f, "platform") && d.platformOption == Field(f, "platform_opt") &&
    d.resultsetId == Field(f, "result_set_id") &&
    d.platformOrder == m[rk].rsObj && d.revision == m[rk].rsObj.revision &&
    d.resultsetAggregateId == tableId(repo, d.resultsetId, d.revision) &&
    d.jobGroups == m[rk].platforms[pk].plObj
  }

  /** Elements are only ever added below existing ones, so a description stays true. */
  lemma DescribesRowExtends(d: PlatformData, f: Record, m: map<string, RsEntry>, m': map<string, RsEntry>,
                            repo: string, tableId: (string, JsValue, string) -> string)
    requires DescribesRow(d, f, m, repo, tableId) && Extends(m, m')
    ensures DescribesRow(d, f, m', repo, tableId)
  {
    var rk := ResultSetKeyOf(f);
    assert RsEntryExtends(m[rk], m'[rk]);
  }

  /** One row of the payload: it holds the jobs at positions `idx` in order and describes the
      row of the first of them. */
  predicate EntryOk(e: PlatformData, idx: seq<nat>, jobs: seq<Job>, fetched: seq<FetchedJob>,
                    m: map<string, RsEntry>, repo: string, tableId: (string, JsValue, string) -> string)
  {
    0 < |idx| && (forall k | 0 <= k < |idx| :: idx[k] < |jobs| && idx[k] < |fetched|) &&
    e.jobs == Pick(jobs, idx) && DescribesRow(e, fetched[idx[0]].fields, m, repo, tableId)
  }

  lemma EntryOkSnoc(e: PlatformData, idx: seq<nat>, jobs: seq<Job>, j: Job, fetched: seq<FetchedJob>,
                    m: map<string, RsEntry>, repo: string, tableId: (string, JsValue, string) -> string)
    requires EntryOk(e, idx, jobs, fetched, m, repo, tableId) && |jobs| < |fetched|
    ensures EntryOk(e, idx, jobs + [j], fetched, m, repo, tableId)
  {
    PickSnoc(jobs, j, idx);
  }

  lemma EntryOkPush(e: PlatformData, idx: seq<nat>, jobs: seq<Job>, j: Job, fetched: seq<FetchedJob>,
                    m: map<string, RsEntry>, repo: string, tableId: (string, JsValue, string) -> string)
    requires EntryOk(e, idx, jobs, fetched, m, repo, tableId) && |jobs| < |fetched|
    ensures EntryOk(e.(jobs := e.jobs + [j]), idx + [|jobs|], jobs + [j], fetched, m, repo, tableId)
  {
    PickSnoc(jobs, j, idx);
    PickPush(jobs + [j], idx, |jobs|);
  }

  lemma EntryOkExtends(e: PlatformData, idx: seq<nat>, jobs: seq<Job>, fetched: seq<FetchedJob>,
                       m: map<string, RsEntry>, m': map<string, RsEntry>, repo: string,
                       tableId: (string, JsValue, string) -> string)
    requires EntryOk(e, idx, jobs, fetched, m, repo, tableId) && Extends(m, m')
    ensures EntryOk(e, idx, jobs, fetched, m', repo, tableId)
  {
    DescribesRowExtends(e, fetched[idx[0]].fields, m, m', repo, tableId);
  }

  /** Every row of `pd` is valid for its positions in `p`. */
  predicate RowsOk(pd: map<string, PlatformData>, p: map<string, seq<nat>>, jobs: seq<Job>,
                   fetched: seq<FetchedJob>, m: map<string, RsEntry>, repo: string,
                   tableId: (string, JsValue, string) -> string)
  {
    pd.Keys == p.Keys && forall a | a in pd :: EntryOk(pd[a], p[a], jobs, fetched, m, repo, tableId)
  }

  /** Every row stays valid when a job is appended to the job list. */
  lemma RowsOkSnoc(pd: map<string, PlatformData>, p: map<string, seq<nat>>, jobs: seq<Job>, j: Job,
                   fetched: seq<FetchedJob>, m: map<string, RsEntry>, repo: string,
                   tableId: (string, JsValue, string) -> string)
    requires |jobs| < |fetched| && RowsOk(pd, p, jobs, fetched, m, repo, tableId)
    ensures RowsOk(pd, p, jobs + [j], fetched, m, repo, tableId)
  {
    forall a | a in pd
      ensures EntryOk(pd[a], p[a], jobs + [j], fetched, m, repo, tableId)
    {
      EntryOkSnoc(pd[a], p[a], jobs, j, fetched, m, repo, tableId);
    }
  }

  /** Setting one row to a valid one keeps every row valid. */
  lemma RowsOkUpdate(pd: map<string, PlatformData>, p: map<string, seq<nat>>, row: string, e: PlatformData,
                     idx: seq<nat>, jobs: seq<Job>, fetched: seq<FetchedJob>, m: map<string, RsEntry>,
                     repo: string, tableId: (string, JsValue, string) -> string)
    requires RowsOk(pd, p, jobs, fetched, m, repo, tableId) && EntryOk(e, idx, jobs, fetched, m, repo, tableId)
    ensures RowsOk(pd[row := e], p[row := idx], jobs, fetched, m, repo, tableId)
  {
  }

  /** The rows stay valid while the index only grows. */
  lemma RowsOkExtends(pd: map<string, PlatformData>, p: map<string, seq<nat>>, jobs: seq<Job>,
                      fetched: seq<FetchedJob>, m: map<string, RsEntry>, m': map<string, RsEntry>, repo: string,
                      tableId: (string, JsValue, string) -> string)
    requires RowsOk(pd, p, jobs, fetched, m, repo, tableId) && Extends(m, m')
    ensures RowsOk(pd, p, jobs, fetched, m', repo, tableId)
  {
    forall a | a in pd
      ensures EntryOk(pd[a], p[a], jobs, fetched, m', repo, tableId)
    {
      EntryOkExtends(pd[a], p[a], jobs, fetched, m, m', repo, tableId);
    }
  }

  /** `pd` is the `jobsLoaded` payload built from the first `n` jobs of `jobs` (fetched as
      `fetched`) against the index `m`: its rows are the payload's, each holding the row's jobs
      in order and describing the row of the job that opened it. */
  predicate PayloadOk(pd: map<string, PlatformData>, n: nat, jobs: seq<Job>, fetched: seq<FetchedJob>,
                      m: map<string, RsEntry>, repo: string, rowId: (string, JsValue, JsValue, JsValue) -> string,
                      tableId: (string, JsValue, string) -> string)
  {
    n == |jobs| <= |fetched| &&
    RowsOk(pd, Payload(Rows(fetched, repo, rowId)[..n], Present(fetched, m)[..n]), jobs, fetched, m, repo, tableId)
  }

  /** The payload stays valid while the index only grows. */
  lemma PayloadOkExtends(pd: map<string, PlatformData>, n: nat, jobs: seq<Job>, fetched: seq<FetchedJob>,
                         m: map<string, RsEntry>, m': map<string, RsEntry>, repo: string,
                         rowId: (string, JsValue, JsValue, JsValue) -> string,
                         tableId: (string, JsValue, string) -> string)
    requires PayloadOk(pd, n, jobs, fetched, m, repo, rowId, tableId) && Extends(m, m')
    ensures PayloadOk(pd, n, jobs, fetched, m', repo, rowId, tableId)
  {
    assert Present(fetched, m) == Present(fetched, m');
    RowsOkExtends(pd, Payload(Rows(fetched, repo, rowId)[..n], Present(fetched, m)[..n]), jobs, fetched, m, m', repo, tableId);
  }

  /** A job whose row is not open and whose result set is not indexed leaves the payload as it is. */
  lemma PayloadOkSkip(pd: map<string, PlatformData>, jobs: seq<Job>, j: Job, fetched: seq<FetchedJob>,
                      m: map<string, RsEntry>, repo: string, rowId: (string, JsValue, JsValue, JsValue) -> string,
                      tableId: (string, JsValue, string) -> string)
    requires |jobs| < |fetched| && PayloadOk(pd, |jobs|, jobs, fetched, m, repo, rowId, tableId)
    requires Rows(fetched, repo, rowId)[|jobs|] !in pd && ResultSetKeyOf(fetched[|jobs|].fields) !in m
    ensures PayloadOk(pd, |jobs| + 1, jobs + [j], fetched, m, repo, rowId, tableId)
  {
    var i: nat, rows, present := |jobs|, Rows(fetched, repo, rowId), Present(fetched, m);
    PayloadSnoc(rows, present, i);
    var p := Payload(rows[..i], present[..i]);
    RowsOkSnoc(pd, p, jobs, j, fetched, m, repo, tableId);
  }

  /** A job whose row is open is added at the end of that row. */
  lemma PayloadOkAppend(pd: map<string, PlatformData>, jobs: seq<Job>, j: Job, fetched: seq<FetchedJob>,
                        m: map<string, RsEntry>, repo: string, rowId: (string, JsValue, JsValue, JsValue) -> string,
                        tableId: (string, JsValue, string) -> string)
    requires |jobs| < |fetched| && PayloadOk(pd, |jobs|, jobs, fetched, m, repo, rowId, tableId)
    requires Rows(fetched, repo, rowId)[|jobs|] in pd
    ensures var row := Rows(fetched, repo, rowId)[|jobs|];
      PayloadOk(pd[row := pd[row].(jobs := pd[row].jobs + [j])], |jobs| + 1, jobs + [j], fetched, m, repo, rowId, tableId)
  {
    var i: nat, rows, present := |jobs|, Rows(fetched, repo, rowId), Present(fetched, m);
    var row := rows[i];
    PayloadSnoc(rows, present, i);
    var p := Payload(rows[..i], present[..i]);
    var pd' := pd[row := pd[row].(jobs := pd[row].jobs + [j])];
    RowsOkSnoc(pd, p, jobs, j, fetched, m, repo, tableId);
    EntryOkPush(pd[row], p[row], jobs, j, fetched, m, repo, tableId);
    RowsOkUpdate(pd, p, row, pd'[row], p[row] + [i], jobs + [j], fetched, m, repo, tableId);
  }

  /** A job whose row is not open but whose result set is indexed opens its row. */
  lemma PayloadOkOpen(pd: map<string, PlatformData>, jobs: seq<Job>, j: Job, fetched: seq<FetchedJob>,
                      m: map<string, RsEntry>, repo: string, rowId: (string, JsValue, JsValue, JsValue) -> string,
                      tableId: (string, JsValue, string) -> string, d: PlatformData)
    requires |jobs| < |fetched| && PayloadOk(pd, |jobs|, jobs, fetched, m, repo, rowId, tableId)
    requires Rows(fetched, repo, rowId)[|jobs|] !in pd
    requires DescribesRow(d, fetched[|jobs|].fields, m, repo, tableId) && d.jobs == [j]
    ensures PayloadOk(pd[Rows(fetched, repo, rowId)[|jobs|] := d], |jobs| + 1, jobs + [j], fetched, m, repo, rowId, tableId)
  {
    var i: nat, rows, present := |jobs|, Rows(fetched, repo, rowId), Present(fetched, m);
    var p := Payload(rows[..i], present[..i]);
    assert present[i];
    PayloadSnoc(rows, present, i);
    RowsOkSnoc(pd, p, jobs, j, fetched, m, repo, tableId);
    assert Pick(jobs + [j], [i]) == [j];
    RowsOkUpdate(pd, p, rows[i], d, [i], jobs + [j], fetched, m, repo, tableId);
  }

  /** The job objects carry the ids of the first fetched records, in order. */
  predicate SameIds(jobs: seq<Job>, fetched: seq<FetchedJob>)
  {
    |jobs| <= |fetched| && forall k | 0 <= k < |jobs| :: jobs[k].id == fetched[k].id
  }

  lemma SameIdsSnoc(jobs: seq<Job>, j: Job, fetched: seq<FetchedJob>)
    requires |jobs| < |fetched| && SameIds(jobs, fetched) && j.id == fetched[|jobs|].id
    ensures SameIds(jobs + [j], fetched)
  {
  }

  /** What updateJob does to the fields of the indexed jobs, by job key, for a job `id` with
      record `f` when the result sets filed under `rks` are indexed: nothing for a job of
      another result set; otherwise the loaded job's fields are extended with `f`, or a new job
      carrying `f` is filed. */
  function FileFields(fm: map<string, Record>, id: int, f: Record, rks: set<string>): (r: map<string, Record>)
    ensures ResultSetKeyOf(f) !in rks ==> r == fm
    ensures ResultSetKeyOf(f) in rks ==>
      r.Keys == fm.Keys + {JobKey(id)} &&
      (forall x | x in f :: x in r[JobKey(id)] && r[JobKey(id)][x] == f[x]) &&
      (JobKey(id) in fm ==> forall x | x in fm[JobKey(id)] && x !in f :: x in r[JobKey(id)] && r[JobKey(id)][x] == fm[JobKey(id)][x]) &&
      (JobKey(id) !in fm ==> r[JobKey(id)] == f) &&
      forall jk | jk in fm && jk != JobKey(id) :: r[jk] == fm[jk]
  {
    if ResultSetKeyOf(f) !in rks then fm
    else
      var jk := JobKey(id);
      fm[jk := if jk in fm then fm[jk] + f else f]
  }

  /** The fields of the indexed jobs after updateJob has filed the fetched jobs one after the
      other. */
  function FoldFields(fm: map<string, Record>, fetched: seq<FetchedJob>, rks: set<string>): map<string, Record>
  {
    if fetched == [] then fm
    else
      var n := |fetched| - 1;
      FileFields(FoldFields(fm, fetched[..n], rks), fetched[n].id, fetched[n].fields, rks)
  }

  /** Whether the fetched job at position `k` belongs to an indexed result set. */
  predicate Handled(fetched: seq<FetchedJob>, k: int, rks: set<string>)
    requires 0 <= k < |fetched|
  {
    ResultSetKeyOf(fetched[k].fields) in rks
  }

  /** The job keys of the handled fetched jobs. */
  function HandledKeys(fetched: seq<FetchedJob>, rks: set<string>): set<string>
  {
    set k | 0 <= k < |fetched| && Handled(fetched, k, rks) :: JobKey(fetched[k].id)
  }

  /** The handled keys of a batch are those of all but its last record, and the last record's
      key when it is handled. */
  lemma HandledKeysSnoc(fetched: seq<FetchedJob>, rks: set<string>)
    requires fetched != []
    ensures var n := |fetched| - 1;
      HandledKeys(fetched, rks) ==
        HandledKeys(fetched[..n], rks) + (if Handled(fetched, n, rks) then {JobKey(fetched[n].id)} else {})
  {
    HandledKeysShrink(fetched, rks);
    HandledKeysGrow(fetched, rks);
  }

  /** Each handled key of a batch comes from its front or from its last record. */
  lemma HandledKeysShrink(fetched: seq<FetchedJob>, rks: set<string>)
    requires fetched != []
    ensures var n := |fetched| - 1;
      HandledKeys(fetched, rks) <=
        HandledKeys(fetched[..n], rks) + (if Handled(fetched, n, rks) then {JobKey(fetched[n].id)} else {})
  {
    var n := |fetched| - 1;
    var front := fetched[..n];
    forall x | x in HandledKeys(fetched, rks)
      ensures x in HandledKeys(front, rks) || (Handled(fetched, n, rks) && x == JobKey(fetched[n].id))
    {
      var k :| 0 <= k < |fetched| && Handled(fetched, k, rks) && x == JobKey(fetched[k].id);
      if k < n {
        assert front[k] == fetched[k];
        assert Handled(front, k, rks);
      }
    }
  }

  /** The front's handled keys, and the last record's key when handled, stay handled keys. */
  lemma HandledKeysGrow(fetched: seq<FetchedJob>, rks: set<string>)
    requires fetched != []
    ensures var n := |fetched| - 1;
      HandledKeys(fetched[..n], rks) <= HandledKeys(fetched, rks) &&
      (Handled(fetched, n, rks) ==> JobKey(fetched[n].id) in HandledKeys(fetched, rks))
  {
    var n := |fetched| - 1;
    var front := fetched[..n];
    forall x | x in HandledKeys(front, rks)
      ensures x in HandledKeys(fetched, rks)
    {
      var k :| 0 <= k < n && Handled(front, k, rks) && x == JobKey(front[k].id);
      assert front[k] == fetched[k];
      assert Handled(fetched, k, rks);
    }
  }

  /** One more fetched record folds in one more filing. */
  lemma FoldFieldsSnoc(fm: map<string, Record>, fetched: seq<FetchedJob>, i: nat, rks: set<string>)
    requires i < |fetched|
    ensures FoldFields(fm, fetched[..i + 1], rks) ==
            FileFields(FoldFields(fm, fetched[..i], rks), fetched[i].id, fetched[i].fields, rks)
  {
    assert fetched[..i + 1][..i] == fetched[..i];
  }

  /** After filing the fetched jobs, the indexed jobs are the loaded ones and one per handled
      fetched job. */
  lemma {:induction false} FoldFieldsKeys(fm: map<string, Record>, fetched: seq<FetchedJob>, rks: set<string>)
    ensures FoldFields(fm, fetched, rks).Keys == fm.Keys + HandledKeys(fetched, rks)
  {
    if fetched != [] {
      var n := |fetched| - 1;
      FoldFieldsKeys(fm, fetched[..n], rks);
      HandledKeysSnoc(fetched, rks);
    }
  }

  /** A loaded job that none of the handled fetched jobs names keeps its fields. */
  lemma {:induction false} FoldFieldsFrame(fm: map<string, Record>, fetched: seq<FetchedJob>, rks: set<string>, jk: string)
    requires jk in fm
    requires forall k | 0 <= k < |fetched| && Handled(fetched, k, rks) :: JobKey(fetched[k].id) != jk
    ensures jk in FoldFields(fm, fetched, rks) && FoldFields(fm, fetched, rks)[jk] == fm[jk]
  {
    if fetched != [] {
      var n := |fetched| - 1;
      forall k | 0 <= k < n && Handled(fetched[..n], k, rks)
        ensures JobKey(fetched[..n][k].id) != jk
      {
        assert fetched[..n][k] == fetched[k];
      }
      FoldFieldsFrame(fm, fetched[..n], rks, jk);
    }
  }

  /** A job holds the fields of the last handled fetched record with its id: each of that
      record's fields has that record's value. */
  lemma {:induction false} FoldFieldsLast(fm: map<string, Record>, fetched: seq<FetchedJob>, rks: set<string>, k: nat)
    requires k < |fetched| && Handled(fetched, k, rks)
    requires forall k' | k < k' < |fetched| && Handled(fetched, k', rks) :: fetched[k'].id != fetched[k].id
    ensures var r, jk := FoldFields(fm, fetched, rks), JobKey(fetched[k].id);
      jk in r && forall x | x in fetched[k].fields :: x in r[jk] && r[jk][x] == fetched[k].fields[x]
  {
    var n := |fetched| - 1;
    if k < n {
      forall k' | k < k' < n && Handled(fetched[..n], k', rks)
        ensures fetched[..n][k'].id != fetched[..n][k].id
      {
        assert fetched[..n][k'] == fetched[k'];
      }
      assert fetched[..n][k] == fetched[k];
      FoldFieldsLast(fm, fetched[..n], rks, k);
      JobKeyInjective(fetched[n].id, fetched[k].id);
    }
  }

  /** Every fetched job whose result set is indexed in `m` is filed in `jm`. */
  predicate Filed(fetched: seq<FetchedJob>, m: map<string, RsEntry>, jm: map<string, JobEntry>)
  {
    forall k | 0 <= k < |fetched| && ResultSetKeyOf(fetched[k].fields) in m :: JobKey(fetched[k].id) in jm
  }

  /** Filing one more fetched job, while the result sets stay and no job is unfiled. */
  lemma FiledSnoc(fetched: seq<FetchedJob>, n: nat, m: map<string, RsEntry>, jm: map<string, JobEntry>,
                  m': map<string, RsEntry>, jm': map<string, JobEntry>)
    requires n < |fetched| && Filed(fetched[..n], m, jm) && m.Keys == m'.Keys
    requires forall k | k in jm :: k in jm'
    requires ResultSetKeyOf(fetched[n].fields) in m' ==> JobKey(fetched[n].id) in jm'
    ensures Filed(fetched[..n + 1], m', jm')
  {
    var front := fetched[..n + 1];
    forall k | 0 <= k < |front| && ResultSetKeyOf(front[k].fields) in m'
      ensures JobKey(front[k].id) in jm'
    {
      if k < n {
        assert fetched[..n][k] == fetched[k];
      }
    }
  }

  // ---------------------------------------------------------------------------
  // The update queues

  /** Where the `job` socket handler puts a notification, as the two queues afterwards: a
      notification for another branch, or whose result set was pushed before the oldest one
      loaded, is dropped; the job is queued when its result set is loaded; otherwise its
      result set is queued, once. */
  function RouteJobEvent(ev: JobEvent, repo: string, oldestTs: int, loaded: bool,
                         jobQueue: seq<int>, rsQueue: seq<int>): (q: (seq<int>, seq<int>))
    ensures var accepted := ev.branch == repo && ev.resultsetPushTimestamp >= oldestTs;
      (!accepted ==> q == (jobQueue, rsQueue)) &&
      (accepted && loaded ==> q == (jobQueue + [ev.id], rsQueue)) &&
      (accepted && !loaded && ev.resultsetId in rsQueue ==> q == (jobQueue, rsQueue)) &&
      (accepted && !loaded && ev.resultsetId !in rsQueue ==> q == (jobQueue, rsQueue + [ev.resultsetId]))
    ensures NoDuplicates(rsQueue) ==> NoDuplicates(q.1)
  {
    if ev.branch != repo || ev.resultsetPushTimestamp < oldestTs then (jobQueue, rsQueue)
    else if loaded then (jobQueue + [ev.id], rsQueue)
    else if IndexOf(rsQueue, ev.resultsetId) < 0 then (jobQueue, rsQueue + [ev.resultsetId])
    else (jobQueue, rsQueue)
  }

  /** The `id__in` parameter of the job list fetch: `jobFetchList.join()`. */
  function JobIdsParam(ids: seq<int>): string
  {
    Join(seq(|ids|, k requires 0 <= k < |ids| => Num(ids[k])), ",")
  }

  /** The rendering of an integer holds no comma. */
  lemma IntToStringNoComma(n: int)
    ensures ',' !in IntToString(n)
  {
    var digits := NatToString(if n < 0 then -n else n);
    forall i | 0 <= i < |digits|
      ensures digits[i] != ','
    {
      assert IsDigit(digits[i]);
    }
    if n < 0 {
      assert IntToString(n) == "-" + digits;
    }
  }

  /** The `id__in` parameter lists the queued job ids losslessly: split at its commas, each
      piece parses back to the id in that position. */
  lemma JobIdsParamRoundTrip(ids: seq<int>)
    requires |ids| > 0
    ensures var pieces := Split(JobIdsParam(ids), ',');
      |pieces| == |ids| && forall k | 0 <= k < |ids| :: ParseInt(pieces[k]) == Some(ids[k])
  {
    var xs := seq(|ids|, k requires 0 <= k < |ids| => Num(ids[k]));
    forall k | 0 <= k < |xs|
      ensures ',' !in ElementString(xs[k])
    {
      IntToStringNoComma(ids[k]);
    }
    SplitJoin(xs, ',');
    forall k | 0 <= k < |ids|
      ensures ParseInt(ElementString(xs[k])) == Some(ids[k])
    {
      ParseIntRoundTrip(ids[k]);
    }
  }

  // ---------------------------------------------------------------------------
  // The engine

  class ResultSetModel {
    var repoName: string
    /** The queue interval; 0 stands for a never-set (`undefined`) interval. */
    var updateQueueInterval: int
    var rsOffset: int
    var jobUpdateQueue: seq<int>
    var rsUpdateQueue: seq<int>
    var rsMap: map<string, RsEntry>
    var jobMap: map<string, JobEntry>
    /** The running minima; 0 stands for `null`, which `!x`, `>` and `>=` treat alike. */
    var jobMapOldestId: int
    var rsMapOldestTimestamp: int
    var resultSets: seq<ResultSet>
    /** `loadingStatus.appending` and `loadingStatus.prepending`. */
    var appending: bool
    var prepending: bool
    /** The display lists the index points into, as they are now. */
    ghost var lists: Lists

    /** The index mirrors the display, the result sets are sorted newest first, and no result
        set is queued twice. */
    ghost predicate Valid()
      reads this, lists.platforms.Keys, lists.groups.Keys, lists.jobs.Keys
    {
      Current(lists) && IndexOk(rsMap, jobMap, resultSets, lists) && SortedDesc(resultSets) &&
      NoDuplicates(rsUpdateQueue)
    }

    /** The state that the index operations leave alone. */
    ghost function Settings(): (string, int, int, bool, bool)
      reads this
    {
      (repoName, updateQueueInterval, rsOffset, appending, prepending)
    }

    ghost function Queues(): (seq<int>, seq<int>)
      reads this
    {
      (jobUpdateQueue, rsUpdateQueue)
    }

    /** The index state: the two maps, the two oldest markers and the display list. */
    ghost function IndexState(): (map<string, RsEntry>, map<string, JobEntry>, int, int, seq<ResultSet>)
      reads this
    {
      (rsMap, jobMap, rsMapOldestTimestamp, jobMapOldestId, resultSets)
    }

    /** The factory and a first `init(interval, repo)`. */
    constructor (interval: int, repo: string)
      ensures Valid()
      ensures Settings() == (repo, interval, 0, false, false)
      ensures Queues() == ([], []) && IndexState() == (map[], map[], 0, 0, [])
    {
      repoName := repo;
      updateQueueInterval := interval;
      rsOffset := 0;
      jobUpdateQueue, rsUpdateQueue := [], [];
      rsMap, jobMap := map[], map[];
      jobMapOldestId, rsMapOldestTimestamp := 0, 0;
      resultSets := [];
      appending, prepending := false, false;
      lists := Lists(map[], map[], map[]);
    }

    /** `init(interval, repo)`: empties the model, the index and the queues; a falsy interval
        keeps the previous one. */
    method Init(interval: int, repo: string)
      modifies this
      ensures Valid()
      ensures Settings() ==
              (repo, if interval != 0 then interval else old(updateQueueInterval), 0, old(appending), old(prepending))
      ensures Queues() == ([], []) && IndexState() == (map[], map[], 0, 0, [])
    {
      if interval != 0 {
        updateQueueInterval := interval;
      }
      repoName := repo;
      rsOffset := 0;
      Clear();
    }

    /** The part of `init` that empties the index and the display list. */
    method Clear()
      modifies this
      ensures Valid() && Settings() == old(Settings())
      ensures Queues() == ([], []) && IndexState() == (map[], map[], 0, 0, [])
    {
      ClearQueues();
      rsMap, jobMap := map[], map[];
      jobMapOldestId, rsMapOldestTimestamp := 0, 0;
      resultSets := [];
      lists := Lists(map[], map[], map[]);
    }

    /** The part of `init` that empties the two update queues. */
    method ClearQueues()
      modifies this`jobUpdateQueue, this`rsUpdateQueue
      ensures Queues() == ([], [])
    {
      jobUpdateQueue, rsUpdateQueue := [], [];
    }

    /** The first statement of each turn of mapResultSets: `rs_obj.revisions = []`. */
    static method ResetRevisions(data: seq<ResultSet>, ghost l: Lists)
      requires Current(l)
      modifies set r | r in data
      ensures forall r | r in data :: r.revisions == [] && r.platforms == old(r.platforms)
      ensures Current(l)
    {
      for i := 0 to |data|
        invariant forall k | 0 <= k < i :: data[k].revisions == []
        invariant forall r | r in data :: r.platforms == old(r.platforms)
        invariant Current(l)
      {
        data[i].revisions := [];
      }
    }

    /** The lists the index covers once a batch is filed: the old ones, and those of the batch. */
    static lemma MergeBatch(data: seq<ResultSet>, lists: Lists) returns (lists': Lists)
      requires Current(lists)
      ensures Current(lists') && Closed(data, lists') && Grown(lists, lists')
    {
      var batch := BatchLists(data);
      lists' := MergeLists(lists, batch);
      MergeCurrent(lists, batch);
      ClosedMerge(data, lists, batch);
    }

    /** The indexing part of mapResultSets, on the values of the state it changes: what the
        four loops file for the batch, the markers and the sorted list. */
    static method IndexAndSort(data: seq<ResultSet>, ghost lists: Lists, ghost lists': Lists,
                               resultSets: seq<ResultSet>,
                               rsMap: map<string, RsEntry>, jobMap: map<string, JobEntry>,
                               oldestTs: int, oldestId: int)
      returns (rsMap': map<string, RsEntry>, jobMap': map<string, JobEntry>, oldestTs': int, oldestId': int,
               sorted: seq<ResultSet>)
      requires Current(lists') && Closed(data, lists') && Grown(lists, lists')
      requires IndexOk(rsMap, jobMap, resultSets, lists)
      requires forall r | r in data :: r in resultSets
      ensures Mapped(data, rsMap, jobMap, oldestTs, oldestId, resultSets, lists,
                     rsMap', jobMap', oldestTs', oldestId', sorted, lists')
    {
      rsMap', jobMap', oldestTs', oldestId' := IndexBatch(data, lists', rsMap, jobMap, oldestTs, oldestId);
      sorted := Sort(resultSets);
      forall r | r in resultSets
        ensures r in sorted
      {
        SortKeeps(resultSets, r);
      }
      MappedBatchOk(rsMap, jobMap, resultSets, sorted, lists, data, lists', lists');
    }

    /** `mapResultSets(data)`: empties the revisions of the batch (already in the display
        list), files it in the index with its platforms, groups and jobs, moves the oldest
        markers, then sorts the list. The ghost `lists` then also records the lists of the
        batch. */
    method MapResultSets(data: seq<ResultSet>)
      requires Current(lists) && IndexOk(rsMap, jobMap, resultSets, lists) && NoDuplicates(rsUpdateQueue)
      requires forall r | r in data :: r in resultSets
      modifies this, set r | r in data
      ensures Valid()
      ensures Settings() == old(Settings()) && Queues() == old(Queues())
      ensures forall r | r in data :: r.revisions == [] && r.platforms == old(r.platforms)
      ensures Mapped(data, old(rsMap), old(jobMap), old(rsMapOldestTimestamp), old(jobMapOldestId),
                     old(resultSets), old(lists),
                     rsMap, jobMap, rsMapOldestTimestamp, jobMapOldestId, resultSets, lists)
    {
      ResetRevisions(data, lists);
      ghost var lists' := MergeBatch(data, lists);
      var m, jm, ts, id, sorted :=
        IndexAndSort(data, lists, lists', resultSets, rsMap, jobMap, rsMapOldestTimestamp, jobMapOldestId);
      StoreIndex(m, jm, ts, id, sorted, lists');
    }

    /** The loop of prependResultSets: the batch walked from its end, each result set newer
        than `oldest` pushed onto the display list and onto the list of those added. */
    static method CollectNewer(data: seq<ResultSet>, oldest: int, resultSets: seq<ResultSet>)
      returns (resultSets': seq<ResultSet>, added: seq<ResultSet>)
      ensures added == NewerReversed(data, oldest) && resultSets' == resultSets + added
    {
      added, resultSets' := [], resultSets;
      var i := |data| - 1;
      while i > -1
        invariant -1 <= i < |data|
        invariant added == NewerReversed(data[i + 1..], oldest) && resultSets' == resultSets + added
      {
        assert data[i..][1..] == data[i + 1..];
        if data[i].pushTimestamp > oldest {
          resultSets' := resultSets' + [data[i]];
          added := added + [data[i]];
        }
        i := i - 1;
      }
    }

    /** `prependResultSets(data)`: the result sets of the batch newer than the oldest indexed
        timestamp are added to the display list, last first, and mapped; the prepending flag
        is cleared. */
    method PrependResultSets(data: seq<ResultSet>)
      requires Valid()
      modifies this, set r | r in data
      ensures Valid()
      ensures (repoName, updateQueueInterval, rsOffset, appending) ==
              old((repoName, updateQueueInterval, rsOffset, appending))
      ensures Queues() == old(Queues()) && !prepending
      ensures var added := NewerReversed(data, old(rsMapOldestTimestamp));
        Mapped(added, old(rsMap), old(jobMap), old(rsMapOldestTimestamp), old(jobMapOldestId),
               old(resultSets) + added, old(lists),
               rsMap, jobMap, rsMapOldestTimestamp, jobMapOldestId, resultSets, lists)
    {
      var rs, added := CollectNewer(data, rsMapOldestTimestamp, resultSets);
      NewerReversedMembers(data, rsMapOldestTimestamp);
      IndexOkGrown(rsMap, jobMap, resultSets, rs, lists, lists);
      resultSets := rs;
      MapResultSets(added);
      SetPrepending(false);
    }

    /** `appendResultSets(data)`: the batch, older than what is shown, is added at the end of the
        display list and mapped; the offset of the next page moves past it and the appending
        flag is cleared. */
    method AppendResultSets(data: seq<ResultSet>)
      requires Valid()
      modifies this, set r | r in data
      ensures Valid()
      ensures (repoName, updateQueueInterval, prepending) == old((repoName, updateQueueInterval, prepending))
      ensures rsOffset == old(rsOffset) + |data| && Queues() == old(Queues()) && !appending
      ensures Mapped(data, old(rsMap), old(jobMap), old(rsMapOldestTimestamp), old(jobMapOldestId),
                     old(resultSets) + data, old(lists),
                     rsMap, jobMap, rsMapOldestTimestamp, jobMapOldestId, resultSets, lists)
    {
      // The flag is cleared together with the list update; mapping does not read it.
      IndexOkGrown(rsMap, jobMap, resultSets, resultSets + data, lists, lists);
      rsOffset, resultSets, appending := rsOffset + |data|, resultSets + data, false;
      MapResultSets(data);
    }

    /** One turn of the payload part of the updateJobs loop, for job `i` with record `f`, after
        updateJob: a row not yet in the payload is opened when the job's result set is indexed
        (a missing platform element under `getPlatformKey(platform, platform_opt)` throws a
        TypeError) and skipped otherwise; the job is pushed onto an open row. */
    static function PayloadStep(pd: map<string, PlatformData>, jobs: seq<Job>, j: Job, fetched: seq<FetchedJob>,
                                f: Record, m: map<string, RsEntry>, repo: string,
                                rowId: (string, JsValue, JsValue, JsValue) -> string,
                                tableId: (string, JsValue, string) -> string): (r: Result<map<string, PlatformData>>)
      requires |jobs| < |fetched| && f == fetched[|jobs|].fields && PayloadOk(pd, |jobs|, jobs, fetched, m, repo, rowId, tableId)
      ensures r.Success? ==> PayloadOk(r.value, |jobs| + 1, jobs + [j], fetched, m, repo, rowId, tableId)
      ensures r.Failure? <==>
        Rows(fetched, repo, rowId)[|jobs|] !in pd && ResultSetKeyOf(f) in m &&
        PlatformOptKeyOf(f) !in m[ResultSetKeyOf(f)].platforms
      ensures r.Failure? ==> r.error == "TypeError"
    {
      var row := rowId(repo, Field(f, "result_set_id"), Field(f, "platform"), Field(f, "platform_opt"));
      assert row == Rows(fetched, repo, rowId)[|jobs|];
      var rk, pk := ResultSetKeyOf(f), PlatformOptKeyOf(f);
      if row in pd then
        PayloadOkAppend(pd, jobs, j, fetched, m, repo, rowId, tableId);
        Success(pd[row := pd[row].(jobs := pd[row].jobs + [j])])
      else if rk !in m then
        PayloadOkSkip(pd, jobs, j, fetched, m, repo, rowId, tableId);
        Success(pd)
      else if pk !in m[rk].platforms then
        Failure("TypeError")
      else
        var rs := m[rk].rsObj;
        var d := PlatformData(Field(f, "platform"), rs.revision, rs, Field(f, "result_set_id"),
                              tableId(repo, Field(f, "result_set_id"), rs.revision), Field(f, "platform_opt"),
                              m[rk].platforms[pk].plObj, [j]);
        PayloadOkOpen(pd, jobs, j, fetched, m, repo, rowId, tableId, d);
        Success(pd[row := d])
    }

    /** `updateJobs(jobList)`: each fetched job is filed by updateJob and then added to the
        `jobsLoaded` payload under its platform row. The payload is returned, or the TypeError
        that a row opened for a platform missing under `getPlatformKey(platform, platform_opt)`
        throws, which ends the loop after that job was filed. Every job whose result set is
        indexed is in jobMap afterwards, up to the job that threw. */
    method UpdateJobs(fetched: seq<FetchedJob>, repo: string,
                      rowId: (string, JsValue, JsValue, JsValue) -> string,
                      tableId: (string, JsValue, string) -> string)
      returns (jobList: seq<Job>, payload: Result<map<string, PlatformData>>)
      requires Valid()
      modifies this, JobObjects(jobMap)`fields
      modifies lists.platforms.Keys`platforms, lists.groups.Keys`groups, lists.jobs.Keys`jobs
      ensures Valid()
      ensures Settings() == old(Settings()) && Queues() == old(Queues()) && resultSets == old(resultSets)
      ensures rsMapOldestTimestamp == old(rsMapOldestTimestamp) && jobMapOldestId == old(jobMapOldestId)
      ensures Extends(old(rsMap), rsMap) && |jobList| <= |fetched|
      ensures SameIds(jobList, fetched)
      ensures payload.Success? ==>
                |jobList| == |fetched| && PayloadOk(payload.value, |fetched|, jobList, fetched, rsMap, repo, rowId, tableId)
      ensures payload.Failure? ==>
                payload.error == "TypeError" && 0 < |jobList| &&
                var f := fetched[|jobList| - 1].fields;
                ResultSetKeyOf(f) in rsMap && PlatformOptKeyOf(f) !in rsMap[ResultSetKeyOf(f)].platforms
      ensures Filed(fetched[..|jobList|], rsMap, jobMap)
      ensures Retains(old(jobMap), jobMap)
      ensures FieldsOf(jobMap) == FoldFields(old(FieldsOf(jobMap)), fetched[..|jobList|], old(rsMap.Keys))
    {
      jobList := [];
      var pd: map<string, PlatformData> := map[];
      for i := 0 to |fetched|
        invariant Valid()
        invariant Settings() == old(Settings()) && Queues() == old(Queues()) && resultSets == old(resultSets)
        invariant rsMapOldestTimestamp == old(rsMapOldestTimestamp) && jobMapOldestId == old(jobMapOldestId)
        invariant Extends(old(rsMap), rsMap)
        invariant lists.platforms.Keys == old(lists.platforms.Keys)
        invariant forall p | p in lists.groups :: p in old(lists.groups) || !old(allocated(p))
        invariant forall g | g in lists.jobs :: g in old(lists.jobs) || !old(allocated(g))
        invariant forall j | j in JobObjects(jobMap) :: j in old(JobObjects(jobMap)) || !old(allocated(j))
        invariant |jobList| == i && SameIds(jobList, fetched)
        invariant Filed(fetched[..i], rsMap, jobMap)
        invariant PayloadOk(pd, i, jobList, fetched, rsMap, repo, rowId, tableId)
        invariant Retains(old(jobMap), jobMap)
        invariant FieldsOf(jobMap) == FoldFields(old(FieldsOf(jobMap)), fetched[..i], old(rsMap.Keys))
      {
        ghost var m0, jm0 := rsMap, jobMap;
        var j, r := FileFetched(pd, jobList, fetched, repo, rowId, tableId);
        ExtendsTransitive(old(rsMap), m0, rsMap);
        FiledSnoc(fetched, i, m0, jm0, rsMap, jobMap);
        RetainsTransitive(old(jobMap), jm0, jobMap);
        FoldFieldsSnoc(old(FieldsOf(jobMap)), fetched, i, old(rsMap.Keys));
        SameIdsSnoc(jobList, j, fetched);
        jobList := jobList + [j];
        if r.Failure? {
          assert fetched[|jobList| - 1] == fetched[i];
          payload := r;
          return;
        }
        pd := r.value;
      }
      payload := Success(pd);
    }

    /** One turn of the updateJobs loop: the job object of the next fetched record is filed
        by updateJob and then added to the payload. */
    method FileFetched(pd: map<string, PlatformData>, jobs: seq<Job>, fetched: seq<FetchedJob>, repo: string,
                       rowId: (string, JsValue, JsValue, JsValue) -> string,
                       tableId: (string, JsValue, string) -> string)
      returns (j: Job, r: Result<map<string, PlatformData>>)
      requires Valid() && |jobs| < |fetched| && PayloadOk(pd, |jobs|, jobs, fetched, rsMap, repo, rowId, tableId)
      modifies this, JobObjects(jobMap)`fields
      modifies lists.platforms.Keys`platforms, lists.groups.Keys`groups, lists.jobs.Keys`jobs
      ensures Valid()
      ensures Settings() == old(Settings()) && Queues() == old(Queues()) && resultSets == old(resultSets)
      ensures rsMapOldestTimestamp == old(rsMapOldestTimestamp) && jobMapOldestId == old(jobMapOldestId)
      ensures Extends(old(rsMap), rsMap)
      ensures lists.platforms.Keys == old(lists.platforms.Keys)
      ensures forall p | p in lists.groups :: p in old(lists.groups) || !old(allocated(p))
      ensures forall g | g in lists.jobs :: g in old(lists.jobs) || !old(allocated(g))
      ensures forall o | o in JobObjects(jobMap) :: o in old(JobObjects(jobMap)) || !old(allocated(o))
      ensures j.id == fetched[|jobs|].id
      ensures Retains(old(jobMap), jobMap)
      ensures var x := fetched[|jobs|];
              forall o: Job | old(allocated(o)) :: o.fields == old(o.fields) ||
                (ResultSetKeyOf(x.fields) in old(rsMap) && JobKey(x.id) in old(jobMap) && o == old(jobMap[JobKey(x.id)].jobObj))
      ensures FieldsOf(jobMap) == FileFields(old(FieldsOf(jobMap)), fetched[|jobs|].id, fetched[|jobs|].fields, old(rsMap.Keys))
      ensures ResultSetKeyOf(fetched[|jobs|].fields) in rsMap ==> JobKey(fetched[|jobs|].id) in jobMap
      ensures r.Success? ==> PayloadOk(r.value, |jobs| + 1, jobs + [j], fetched, rsMap, repo, rowId, tableId)
      ensures r.Failure? ==>
                r.error == "TypeError" &&
                var f := fetched[|jobs|].fields;
                ResultSetKeyOf(f) in rsMap && PlatformOptKeyOf(f) !in rsMap[ResultSetKeyOf(f)].platforms
    {
      ghost var m0 := rsMap;
      var f := fetched[|jobs|].fields;
      j := FileJob(fetched[|jobs|].id, f);
      PayloadOkExtends(pd, |jobs|, jobs, fetched, m0, rsMap, repo, rowId, tableId);
      r := PayloadStep(pd, jobs, j, fetched, f, rsMap, repo, rowId, tableId);
    }

    /** The job object of one fetched record, handed to updateJob. */
    method FileJob(id: int, f: Record) returns (j: Job)
      requires Valid()
      modifies this, JobObjects(jobMap)`fields
      modifies lists.platforms.Keys`platforms, lists.groups.Keys`groups, lists.jobs.Keys`jobs
      ensures Valid()
      ensures Settings() == old(Settings()) && Queues() == old(Queues()) && resultSets == old(resultSets)
      ensures rsMapOldestTimestamp == old(rsMapOldestTimestamp) && jobMapOldestId == old(jobMapOldestId)
      ensures Extends(old(rsMap), rsMap)
      ensures lists.platforms.Keys == old(lists.platforms.Keys)
      ensures forall p | p in lists.groups :: p in old(lists.groups) || !old(allocated(p))
      ensures forall g | g in lists.jobs :: g in old(lists.jobs) || !old(allocated(g))
      ensures forall o | o in JobObjects(jobMap) :: o in old(JobObjects(jobMap)) || !old(allocated(o))
      ensures j.id == id
      ensures Retains(old(jobMap), jobMap)
      ensures ResultSetKeyOf(f) in rsMap ==> JobKey(id) in jobMap
      ensures forall o: Job | old(allocated(o)) :: o.fields == old(o.fields) ||
                (ResultSetKeyOf(f) in old(rsMap) && JobKey(id) in old(jobMap) && o == old(jobMap[JobKey(id)].jobObj))
      ensures FieldsOf(jobMap) == FileFields(old(FieldsOf(jobMap)), id, f, old(rsMap.Keys))
    {
      j := new Job(id, f);
      UpdateJob(j);
    }

    /** `getOrCreatePlatform(newJob)`: the platform element of the job's result set under
        `getPlatformKey(platform, option)`; when there is none, a platform named after the
        job's `platform` and `platform_opt` is pushed onto the result set's list and filed
        under that key. Returns the key. */
    method GetOrCreatePlatform(job: Record) returns (pk: string)
      requires Valid() && ResultSetKeyOf(job) in rsMap
      modifies this, rsMap[ResultSetKeyOf(job)].rsObj`platforms
      ensures Valid()
      ensures Settings() == old(Settings()) && Queues() == old(Queues())
      ensures jobMap == old(jobMap) && resultSets == old(resultSets)
      ensures forall o: Job | old(allocated(o)) :: o.fields == old(o.fields)
      ensures rsMapOldestTimestamp == old(rsMapOldestTimestamp) && jobMapOldestId == old(jobMapOldestId)
      ensures pk == PlatformKeyOf(job) && Extends(old(rsMap), rsMap)
      ensures var rk := ResultSetKeyOf(job);
              var r := old(rsMap[rk].rsObj);
              pk in rsMap[rk].platforms &&
              var p := rsMap[rk].platforms[pk].plObj;
              rsMap == WithPlatform(old(rsMap), rk, pk, p) &&
              lists == WithPlatformLists(old(lists), r, p) &&
              (pk in old(rsMap[rk].platforms) ==> p in old(lists.groups)) &&
              (pk !in old(rsMap[rk].platforms) ==>
                 fresh(p) && p.name == Field(job, "platform") &&
                 p.option == Field(job, "platform_opt") && p.groups == [] &&
                 r.platforms == old(r.platforms) + [p])
    {
      var rk := ResultSetKeyOf(job);
      var re := rsMap[rk];
      pk := PlatformKeyOf(job);
      if pk !in re.platforms {
        var p := PushPlatform(re.rsObj, Field(job, "platform"), Field(job, "platform_opt"), lists);
        ghost var l := AddPlatform(lists, re.rsObj, p);
        IndexOkGrown(rsMap, jobMap, resultSets, resultSets, lists, l);
        WithPlatformOk(rsMap, jobMap, resultSets, l, rk, pk, p);
        StoreIndex(WithPlatform(rsMap, rk, pk, p), jobMap, rsMapOldestTimestamp, jobMapOldestId, resultSets, l);
      }
    }

    /** `getOrCreateGroup(newJob)`: after getOrCreatePlatform, the group element under the job's
        `job_group_name`; when there is none, a group with the job's group name and symbol is
        pushed onto the platform's list and filed under its name. Returns both keys. */
    method GetOrCreateGroup(job: Record) returns (pk: string, gk: string)
      requires Valid() && ResultSetKeyOf(job) in rsMap
      modifies this, rsMap[ResultSetKeyOf(job)].rsObj`platforms, lists.groups.Keys`groups
      ensures Valid()
      ensures Settings() == old(Settings()) && Queues() == old(Queues())
      ensures jobMap == old(jobMap) && resultSets == old(resultSets)
      ensures forall o: Job | old(allocated(o)) :: o.fields == old(o.fields)
      ensures rsMapOldestTimestamp == old(rsMapOldestTimestamp) && jobMapOldestId == old(jobMapOldestId)
      ensures pk == PlatformKeyOf(job) && gk == GroupKeyOf(job)
      ensures GroupFound(job, old(rsMap), old(lists), rsMap, lists)
      ensures var rk := ResultSetKeyOf(job);
              var p := rsMap[rk].platforms[pk].plObj;
              var g := rsMap[rk].platforms[pk].groups[gk].grpObj;
              (p in old(lists.groups) || !old(allocated(p))) && (g in old(lists.jobs) || !old(allocated(g))) &&
              (gk !in WithPlatform(old(rsMap), rk, pk, p)[rk].platforms[pk].groups ==>
                 fresh(g) && g.name == Field(job, "job_group_name") &&
                 g.symbol == Field(job, "job_group_symbol") && g.jobs == [])
    {
      pk := GetOrCreatePlatform(job);
      var rk := ResultSetKeyOf(job);
      var pe := rsMap[rk].platforms[pk];
      gk := GroupKeyOf(job);
      if gk !in pe.groups {
        ghost var m1 := rsMap;
        AddGroupElement(rk, pk, gk, Field(job, "job_group_name"), Field(job, "job_group_symbol"));
        ExtendsTransitive(old(rsMap), m1, rsMap);
      }
    }

    /** The missing-group branch of getOrCreateGroup: a new group is pushed onto the platform's
        list and filed under `gk`. */
    method AddGroupElement(rk: string, pk: string, gk: string, name: JsValue, symbol: JsValue)
      requires Valid() && rk in rsMap && pk in rsMap[rk].platforms && gk !in rsMap[rk].platforms[pk].groups
      requires gk == ToPropertyKey(name)
      modifies this, rsMap[rk].platforms[pk].plObj`groups
      ensures Valid()
      ensures Settings() == old(Settings()) && Queues() == old(Queues())
      ensures jobMap == old(jobMap) && resultSets == old(resultSets)
      ensures forall o: Job | old(allocated(o)) :: o.fields == old(o.fields)
      ensures rsMapOldestTimestamp == old(rsMapOldestTimestamp) && jobMapOldestId == old(jobMapOldestId)
      ensures rk in rsMap && pk in rsMap[rk].platforms && gk in rsMap[rk].platforms[pk].groups &&
              var p, g := old(rsMap[rk].platforms[pk].plObj), rsMap[rk].platforms[pk].groups[gk].grpObj;
              rsMap == WithGroup(old(rsMap), rk, pk, gk, g) && lists == AddGroup(old(lists), p, g) &&
              fresh(g) && g.name == name && g.symbol == symbol && g.jobs == []
    {
      var p := rsMap[rk].platforms[pk].plObj;
      var g := PushGroup(p, name, symbol, lists);
      ghost var l := AddGroup(lists, p, g);
      IndexOkGrown(rsMap, jobMap, resultSets, resultSets, lists, l);
      WithGroupOk(rsMap, jobMap, resultSets, l, rk, pk, gk, g);
      StoreIndex(WithGroup(rsMap, rk, pk, gk, g), jobMap, rsMapOldestTimestamp, jobMapOldestId, resultSets, l);
    }

    /** `updateJob(newJob)`: nothing happens when the job's result set is not indexed; a job
        whose key is in jobMap gets the new job's fields copied over its own (`_.extend`);
        otherwise the new job is filed under its platform and group, which are made when
        missing. Afterwards a job of an indexed result set is in jobMap with the new fields. */
    method UpdateJob(newJob: Job)
      requires Valid()
      modifies this, JobObjects(jobMap)`fields
      modifies lists.platforms.Keys`platforms, lists.groups.Keys`groups, lists.jobs.Keys`jobs
      ensures Valid()
      ensures Settings() == old(Settings()) && Queues() == old(Queues()) && resultSets == old(resultSets)
      ensures rsMapOldestTimestamp == old(rsMapOldestTimestamp) && jobMapOldestId == old(jobMapOldestId)
      ensures var f, jk := old(newJob.fields), JobKey(newJob.id);
        if ResultSetKeyOf(f) !in old(rsMap) then
          rsMap == old(rsMap) && jobMap == old(jobMap) && lists == old(lists)
        else if jk in old(jobMap) then
          rsMap == old(rsMap) && jobMap == old(jobMap) && lists == old(lists) &&
          jobMap[jk].jobObj.fields == old(jobMap[jk].jobObj.fields) + f
        else
          JobFiled(f, newJob, old(rsMap), old(jobMap), old(lists), rsMap, jobMap, lists)
      ensures var f, jk := old(newJob.fields), JobKey(newJob.id);
        ResultSetKeyOf(f) in old(rsMap) ==> jk in jobMap && (jk in old(jobMap) || jobMap[jk].jobObj == newJob)
      ensures lists.platforms.Keys == old(lists.platforms.Keys)
      ensures forall p | p in lists.groups :: p in old(lists.groups) || !old(allocated(p))
      ensures forall g | g in lists.jobs :: g in old(lists.jobs) || !old(allocated(g))
      ensures forall j | j in JobObjects(jobMap) :: j in old(JobObjects(jobMap)) || j == newJob
      ensures forall o: Job | old(allocated(o)) :: o.fields == old(o.fields) ||
                (ResultSetKeyOf(old(newJob.fields)) in old(rsMap) && JobKey(newJob.id) in old(jobMap) &&
                 o == old(jobMap[JobKey(newJob.id)].jobObj))
      ensures Retains(old(jobMap), jobMap)
      ensures FieldsOf(jobMap) == FileFields(old(FieldsOf(jobMap)), newJob.id, old(newJob.fields), old(rsMap.Keys))
    {
      var f := newJob.fields;
      var jk := JobKey(newJob.id);
      if ResultSetKeyOf(f) !in rsMap {
        return;
      }
      if jk in jobMap {
        IndexKeysOk(rsMap, jobMap, resultSets, lists);
        ExtendJob(jobMap[jk].jobObj, f);
      } else {
        ghost var jm0 := jobMap;
        AddNewJob(newJob, f);
        JobFiledFound(f, newJob, old(rsMap), old(jobMap), old(lists), rsMap, jobMap, lists);
        RetainsAdd(jm0, jk, jobMap[jk]);
        FieldsOfKept(jm0);
        FieldsOfUpdate(jm0, jk, jobMap[jk]);
      }
    }

    /** The adding branch of updateJob for job `j` with record `f`. */
    method AddNewJob(j: Job, f: Record)
      requires Valid() && ResultSetKeyOf(f) in rsMap && JobKey(j.id) !in jobMap && j.fields == f
      modifies this, rsMap[ResultSetKeyOf(f)].rsObj`platforms, lists.groups.Keys`groups, lists.jobs.Keys`jobs
      ensures Valid()
      ensures Settings() == old(Settings()) && Queues() == old(Queues()) && resultSets == old(resultSets)
      ensures rsMapOldestTimestamp == old(rsMapOldestTimestamp) && jobMapOldestId == old(jobMapOldestId)
      ensures JobFiled(f, j, old(rsMap), old(jobMap), old(lists), rsMap, jobMap, lists)
      ensures lists.platforms.Keys == old(lists.platforms.Keys)
      ensures forall p | p in lists.groups :: p in old(lists.groups) || !old(allocated(p))
      ensures forall g | g in lists.jobs :: g in old(lists.jobs) || !old(allocated(g))
      ensures forall j' | j' in JobObjects(jobMap) :: j' in old(JobObjects(jobMap)) || j' == j
      ensures forall o: Job | old(allocated(o)) :: o.fields == old(o.fields)
    {
      var pk, gk := GetOrCreateGroup(f);
      var rk, jk := ResultSetKeyOf(f), JobKey(j.id);
      var g := rsMap[rk].platforms[pk].groups[gk].grpObj;
      GroupFoundKeys(f, old(rsMap), old(lists), rsMap, lists);
      ghost var p, l1 := rsMap[rk].platforms[pk].plObj, lists;
      assert p in old(lists.groups) || !old(allocated(p));
      assert g in old(lists.jobs) || !old(allocated(g));
      PushJob(g, j, lists);
      GroupFoundFiled(f, j, old(rsMap), old(jobMap), old(lists), rsMap, lists);
      ghost var l := AddJob(lists, g, j);
      IndexOkGrown(rsMap, jobMap, resultSets, resultSets, lists, l);
      WithJobOk(rsMap, jobMap, resultSets, l, rk, pk, gk, jk, JobEntry(j, g));
      StoreIndex(WithJob(rsMap, rk, pk, gk, jk, JobEntry(j, g)), jobMap[jk := JobEntry(j, g)],
                 rsMapOldestTimestamp, jobMapOldestId, resultSets, l);
      JobObjectsAdd(old(jobMap), jk, JobEntry(j, g));
      forall p' | p' in lists.groups
        ensures p' in old(lists.groups) || !old(allocated(p'))
      {
        assert p' in l1.groups;
      }
      forall g' | g' in lists.jobs
        ensures g' in old(lists.jobs) || !old(allocated(g'))
      {
        assert g' in l1.jobs;
      }
    }

    /** `_.extend(loadedJob, newJob)`: the new fields are copied over the loaded job's. */
    method ExtendJob(loaded: Job, f: Record)
      requires Valid() && KeysOk(jobMap) && JobKey(loaded.id) in jobMap && jobMap[JobKey(loaded.id)].jobObj == loaded
      modifies loaded`fields
      ensures loaded.fields == old(loaded.fields) + f
      ensures Valid()
      ensures unchanged(this)
      ensures forall o: Job | old(allocated(o)) && o != loaded :: o.fields == old(o.fields)
      ensures FieldsOf(jobMap) == old(FieldsOf(jobMap))[JobKey(loaded.id) := old(loaded.fields) + f]
    {
      loaded.fields := loaded.fields + f;
      FieldsOfExtended(jobMap, loaded);
    }

    /** `grp_obj.jobs.push(newJob)`. */
    method PushJob(g: Group, j: Job, ghost l: Lists)
      requires Current(l) && g in l.jobs
      modifies g`jobs
      ensures g.jobs == old(g.jobs) + [j]
      ensures Current(AddJob(l, g, j))
      ensures unchanged(this)
      ensures forall o: Job | old(allocated(o)) :: o.fields == old(o.fields)
    {
      g.jobs := g.jobs + [j];
    }

    /** `rs_obj.platforms.push(pl_obj)` for a new platform `{name, option, groups: []}`. */
    method PushPlatform(r: ResultSet, name: JsValue, option: JsValue, ghost l: Lists) returns (p: Platform)
      requires Current(l) && r in l.platforms
      modifies r`platforms
      ensures fresh(p) && p.name == name && p.option == option && p.groups == []
      ensures r.platforms == old(r.platforms) + [p]
      ensures p !in l.groups && Current(AddPlatform(l, r, p))
      ensures unchanged(this)
      ensures forall o: Job | old(allocated(o)) :: o.fields == old(o.fields)
    {
      p := new Platform(name, option);
      r.platforms := r.platforms + [p];
    }

    /** `pl_obj.groups.push(grp_obj)` for a new group `{symbol, name, jobs: []}`. */
    method PushGroup(p: Platform, name: JsValue, symbol: JsValue, ghost l: Lists) returns (g: Group)
      requires Current(l) && p in l.groups
      modifies p`groups
      ensures fresh(g) && g.name == name && g.symbol == symbol && g.jobs == []
      ensures p.groups == old(p.groups) + [g]
      ensures g !in l.jobs && Current(AddGroup(l, p, g))
      ensures unchanged(this)
      ensures forall o: Job | old(allocated(o)) :: o.fields == old(o.fields)
    {
      g := new Group(name, symbol);
      p.groups := p.groups + [g];
    }

    /** `loadingStatus.appending = b`. */
    method SetAppending(b: bool)
      requires Valid()
      modifies this`appending
      ensures Valid() && appending == b
    {
      appending := b;
    }

    /** `loadingStatus.prepending = b`. */
    method SetPrepending(b: bool)
      requires Valid()
      modifies this`prepending
      ensures Valid() && prepending == b
    {
      prepending := b;
    }

    /** The `job` socket handler for a notification `ev`. */
    method OnJobEvent(ev: JobEvent)
      requires Valid()
      modifies this`jobUpdateQueue, this`rsUpdateQueue
      ensures Valid()
      ensures Queues() == RouteJobEvent(ev, repoName, rsMapOldestTimestamp, RsKey(ev.resultsetId) in rsMap,
                                        old(jobUpdateQueue), old(rsUpdateQueue))
    {
      if ev.branch == repoName && ev.resultsetPushTimestamp >= rsMapOldestTimestamp {
        if RsKey(ev.resultsetId) in rsMap {
          jobUpdateQueue := jobUpdateQueue + [ev.id];
        } else if IndexOf(rsUpdateQueue, ev.resultsetId) < 0 {
          rsUpdateQueue := rsUpdateQueue + [ev.resultsetId];
        }
      }
    }

    /** `processUpdateQueues()`: both queues are taken and emptied; queued result sets are
        requested with fetchNewResultSets, and queued jobs with one job list fetch whose
        `id__in` parameter is returned. */
    method ProcessUpdateQueues() returns (rsRequest: Option<ResultSetsRequest>, jobsParam: Option<string>)
      requires Valid()
      modifies this`jobUpdateQueue, this`rsUpdateQueue, this`prepending
      ensures Valid() && Queues() == ([], [])
      ensures rsRequest == if old(rsUpdateQueue) == [] then None
                           else Some(ResultSetsRequest(0, |old(rsUpdateQueue)|, Some(old(rsUpdateQueue))))
      ensures prepending == (old(rsUpdateQueue) != [] || old(prepending))
      ensures jobsParam == if old(jobUpdateQueue) == [] then None else Some(JobIdsParam(old(jobUpdateQueue)))
    {
      var rsFetchList, jobFetchList := rsUpdateQueue, jobUpdateQueue;
      rsUpdateQueue, jobUpdateQueue := [], [];
      rsRequest, jobsParam := None, None;
      if |rsFetchList| > 0 {
        var req := FetchNewResultSets(rsFetchList);
        rsRequest := Some(req);
      }
      if |jobFetchList| > 0 {
        jobsParam := Some(JobIdsParam(jobFetchList));
      }
    }

    /** `fetchNewResultSets(list)`: marks a prepend as under way and requests the listed result
        sets, which are then passed to prependResultSets. */
    method FetchNewResultSets(ids: seq<int>) returns (req: ResultSetsRequest)
      requires Valid()
      modifies this`prepending
      ensures Valid() && prepending
      ensures req == ResultSetsRequest(0, |ids|, Some(ids))
    {
      SetPrepending(true);
      req := ResultSetsRequest(0, |ids|, Some(ids));
    }

    /** `fetchResultSets(count)`: marks an append as under way and requests the next `count`
        result sets from the current offset, which are then passed to appendResultSets. */
    method FetchResultSets(count: int) returns (req: ResultSetsRequest)
      requires Valid()
      modifies this`appending
      ensures Valid() && appending
      ensures req == ResultSetsRequest(rsOffset, count, None)
    {
      SetAppending(true);
      req := ResultSetsRequest(rsOffset, count, None);
    }

    /** `loadRevisions(resultset_id)`: the revisions of a loaded result set are requested from
        its `revisions_uri` exactly when none were loaded yet; an id that is not loaded throws
        a TypeError (`rsMap[id]` is undefined). */
    method LoadRevisions(id: JsValue) returns (r: Result<Option<string>>)
      ensures r.Failure? <==> ToPropertyKey(id) !in rsMap
      ensures r.Failure? ==> r.error == "TypeError"
      ensures r.Success? ==>
        var rs := rsMap[ToPropertyKey(id)].rsObj;
        (r.value.Some? <==> rs.revisions == []) && (r.value.Some? ==> r.value.value == rs.revisionsUri)
    {
      var k := ToPropertyKey(id);
      if k !in rsMap {
        return Failure("TypeError");
      }
      var rs := rsMap[k].rsObj;
      if |rs.revisions| == 0 {
        return Success(Some(rs.revisionsUri));
      }
      return Success(None);
    }

    /** The success callback of loadRevisions: the fetched revisions are appended to the
        result set's list, which leaves the index as it is. */
    method RevisionsLoaded(rs: ResultSet, data: seq<Record>)
      requires Valid()
      modifies rs`revisions
      ensures Valid() && rs.revisions == old(rs.revisions) + data
    {
      rs.revisions := rs.revisions + data;
    }

    /** Replaces the index state in one step. */
    method StoreIndex(m: map<string, RsEntry>, jm: map<string, JobEntry>, ts: int, id: int,
                      rs: seq<ResultSet>, ghost l: Lists)
      requires Current(l) && IndexOk(m, jm, rs, l) && SortedDesc(rs) && NoDuplicates(rsUpdateQueue)
      modifies this
      ensures Valid()
      ensures rsMap == m && jobMap == jm && rsMapOldestTimestamp == ts && jobMapOldestId == id
      ensures resultSets == rs && lists == l
      ensures Settings() == old(Settings()) && Queues() == old(Queues())
      ensures forall o: Job | old(allocated(o)) :: o.fields == old(o.fields)
    {
      rsMap, jobMap, rsMapOldestTimestamp, jobMapOldestId, resultSets, lists := m, jm, ts, id, rs, l;
    }
  }
}
