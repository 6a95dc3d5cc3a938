/** The layered index of ThResultSetModel: `rsMap` (result-set id -> platform key -> group
    name -> job key) and the flat `jobMap`, as mapResultSets builds them from a batch of
    result sets (webapp/app/js/services/models/resultsets.js:58-126). Index entries are values
    that refer to the display objects; the invariant that every entry names an object that
    sits in the list of the entry above it is stated here, with the lemmas that it survives
    the list growth the engine performs. */
module Index {
  import opened JsValues
  import opened Display

  /** `jobMapElement`: a job and the group it was filed under (its `parent`). */
  datatype JobEntry = JobEntry(jobObj: Job, parent: Group)
  /** `grMapElement`: a group and its jobs by job key. */
  datatype GroupEntry = GroupEntry(grpObj: Group, jobs: map<string, JobEntry>)
  /** `plMapElement`: a platform and its groups by group name. */
  datatype PlatformEntry = PlatformEntry(plObj: Platform, groups: map<string, GroupEntry>)
  /** `rsMapElement`: a result set and its platforms by platform key. */
  datatype RsEntry = RsEntry(rsObj: ResultSet, platforms: map<string, PlatformEntry>)

  // ---------------------------------------------------------------------------
  // What mapResultSets builds from a batch

  /** The job entries of one group, in list order. */
  function JobEntries(jobs: seq<Job>, g: Group): (es: seq<JobEntry>)
    ensures |es| == |jobs|
    ensures forall i | 0 <= i < |es| :: es[i] == JobEntry(jobs[i], g)
  {
    if jobs == [] then [] else JobEntries(jobs[..|jobs| - 1], g) + [JobEntry(jobs[|jobs| - 1], g)]
  }

  /** Entries filed by job key one after the other, a later one replacing an earlier one. */
  function EntriesMap(es: seq<JobEntry>): map<string, JobEntry>
  {
    if es == [] then map[]
    else
      var e := es[|es| - 1];
      EntriesMap(es[..|es| - 1])[JobKey(e.jobObj.id) := e]
  }

  /** The group element built for `g`: its jobs by key, each with `g` as parent. */
  function GroupEntryOf(g: Group, l: Lists): GroupEntry
  {
    GroupEntry(g, EntriesMap(JobEntries(l.JobsOf(g), g)))
  }

  /** The group elements of a list of groups by name, a later group replacing an earlier one
      of the same name. */
  function GroupsIndex(gs: seq<Group>, l: Lists): map<string, GroupEntry>
  {
    if gs == [] then map[]
    else
      var g := gs[|gs| - 1];
      GroupsIndex(gs[..|gs| - 1], l)[ToPropertyKey(g.name) := GroupEntryOf(g, l)]
  }

  /** The job entries of a list of groups, group after group. */
  function GroupsJobs(gs: seq<Group>, l: Lists): seq<JobEntry>
  {
    if gs == [] then []
    else
      var g := gs[|gs| - 1];
      GroupsJobs(gs[..|gs| - 1], l) + JobEntries(l.JobsOf(g), g)
  }

  function PlatformEntryOf(p: Platform, l: Lists): PlatformEntry
  {
    PlatformEntry(p, GroupsIndex(l.GroupsOf(p), l))
  }

  /** The platform elements of a list of platforms by platform key. */
  function PlatformsIndex(ps: seq<Platform>, l: Lists): map<string, PlatformEntry>
  {
    if ps == [] then map[]
    else
      var p := ps[|ps| - 1];
      PlatformsIndex(ps[..|ps| - 1], l)[PlatformKey(p.name, p.option) := PlatformEntryOf(p, l)]
  }

  function PlatformsJobs(ps: seq<Platform>, l: Lists): seq<JobEntry>
  {
    if ps == [] then []
    else
      var p := ps[|ps| - 1];
      PlatformsJobs(ps[..|ps| - 1], l) + GroupsJobs(l.GroupsOf(p), l)
  }

  function RsEntryOf(r: ResultSet, l: Lists): RsEntry
  {
    RsEntry(r, PlatformsIndex(l.PlatformsOf(r), l))
  }

  /** The rsMap entries of a batch: each result set under `String(id)`, a later one with the
      same id replacing an earlier one. */
  function RsIndex(data: seq<ResultSet>, l: Lists): map<string, RsEntry>
  {
    if data == [] then map[]
    else
      var r := data[|data| - 1];
      RsIndex(data[..|data| - 1], l)[RsKey(r.id) := RsEntryOf(r, l)]
  }

  /** Every job of a batch with its group, in the order of the four nested loops. */
  function BatchJobs(data: seq<ResultSet>, l: Lists): seq<JobEntry>
  {
    if data == [] then []
    else
      var r := data[|data| - 1];
      BatchJobs(data[..|data| - 1], l) + PlatformsJobs(l.PlatformsOf(r), l)
  }

  /** Each element of the filed map is one of the entries, under its own job key, and every
      entry's key is filed. */
  lemma {:induction false} EntriesMapFrom(es: seq<JobEntry>)
    ensures forall jk | jk in EntriesMap(es) :: EntriesMap(es)[jk] in es && jk == JobKey(EntriesMap(es)[jk].jobObj.id)
    ensures forall e | e in es :: JobKey(e.jobObj.id) in EntriesMap(es)
  {
    if es != [] {
      var es', last := es[..|es| - 1], es[|es| - 1];
      EntriesMapFrom(es');
      assert es == es' + [last];
    }
  }

  /** Each group element filed for a list of groups is the element of one of them, under its
      name. */
  lemma {:induction false} GroupsIndexFrom(gs: seq<Group>, l: Lists)
    ensures forall gk | gk in GroupsIndex(gs, l) ::
      GroupsIndex(gs, l)[gk].grpObj in gs && GroupsIndex(gs, l)[gk] == GroupEntryOf(GroupsIndex(gs, l)[gk].grpObj, l)
      && gk == ToPropertyKey(GroupsIndex(gs, l)[gk].grpObj.name)
  {
    if gs != [] {
      GroupsIndexFrom(gs[..|gs| - 1], l);
    }
  }

  /** Two groups of one platform whose names give the same key share one group element, the
      later group's: the earlier group stays in the platform's list but the index no longer
      reaches it. */
  lemma GroupsIndexShadows(g1: Group, g2: Group, l: Lists)
    requires ToPropertyKey(g1.name) == ToPropertyKey(g2.name)
    ensures var gm := GroupsIndex([g1, g2], l);
      gm.Keys == {ToPropertyKey(g2.name)} && gm[ToPropertyKey(g2.name)].grpObj == g2
  {
    assert [g1, g2][..1] == [g1];
    assert [g1][..0] == [];
    assert GroupsIndex([g1], l) == map[ToPropertyKey(g1.name) := GroupEntryOf(g1, l)];
    assert GroupsIndex([g1, g2], l) == GroupsIndex([g1], l)[ToPropertyKey(g2.name) := GroupEntryOf(g2, l)];
  }

  /** Two jobs of one group with the same id share one job element, the later job's. */
  lemma EntriesMapShadows(j1: Job, j2: Job, g: Group)
    requires j1.id == j2.id
    ensures var jm := EntriesMap(JobEntries([j1, j2], g));
      jm.Keys == {JobKey(j2.id)} && jm[JobKey(j2.id)].jobObj == j2
  {
    var es := JobEntries([j1, j2], g);
    assert es == [JobEntry(j1, g), JobEntry(j2, g)];
    assert es[..1] == [JobEntry(j1, g)];
    assert es[..1][..0] == [];
    assert EntriesMap(es[..1]) == map[JobKey(j1.id) := JobEntry(j1, g)];
    assert EntriesMap(es) == EntriesMap(es[..1])[JobKey(j2.id) := JobEntry(j2, g)];
  }


  /** Each job element of a list of groups holds a job of its parent's list. */
  lemma {:induction false} GroupsJobsFrom(gs: seq<Group>, l: Lists)
    ensures forall e | e in GroupsJobs(gs, l) :: e.jobObj in l.JobsOf(e.parent)
  {
    if gs != [] {
      GroupsJobsFrom(gs[..|gs| - 1], l);
    }
  }

  lemma {:induction false} PlatformsIndexFrom(ps: seq<Platform>, l: Lists)
    ensures forall pk | pk in PlatformsIndex(ps, l) ::
      PlatformsIndex(ps, l)[pk].plObj in ps
      && PlatformsIndex(ps, l)[pk] == PlatformEntryOf(PlatformsIndex(ps, l)[pk].plObj, l)
  {
    if ps != [] {
      PlatformsIndexFrom(ps[..|ps| - 1], l);
    }
  }

  lemma {:induction false} PlatformsJobsFrom(ps: seq<Platform>, l: Lists)
    ensures forall e | e in PlatformsJobs(ps, l) :: e.jobObj in l.JobsOf(e.parent)
  {
    if ps != [] {
      PlatformsJobsFrom(ps[..|ps| - 1], l);
      GroupsJobsFrom(l.GroupsOf(ps[|ps| - 1]), l);
    }
  }

  lemma {:induction false} RsIndexFrom(data: seq<ResultSet>, l: Lists)
    ensures forall rk | rk in RsIndex(data, l) ::
      RsIndex(data, l)[rk].rsObj in data && RsIndex(data, l)[rk] == RsEntryOf(RsIndex(data, l)[rk].rsObj, l)
      && rk == RsKey(RsIndex(data, l)[rk].rsObj.id)
  {
    if data != [] {
      RsIndexFrom(data[..|data| - 1], l);
    }
  }

  lemma {:induction false} BatchJobsFrom(data: seq<ResultSet>, l: Lists)
    ensures forall e | e in BatchJobs(data, l) :: e.jobObj in l.JobsOf(e.parent)
  {
    if data != [] {
      BatchJobsFrom(data[..|data| - 1], l);
      PlatformsJobsFrom(l.PlatformsOf(data[|data| - 1]), l);
    }
  }

  // ---------------------------------------------------------------------------
  // Running minima. `null` is represented by 0: both `!x` and `x > y` treat them alike.

  /** `if (!oldest || oldest > value) oldest = value`. */
  function OldestStep(oldest: int, value: int): (o: int)
    ensures o == value || o == oldest
  {
    if oldest == 0 || oldest > value then value else oldest
  }

  /** The marker after `values` were seen one after the other, starting from `oldest`. */
  function Oldest(oldest: int, values: seq<int>): int
  {
    if values == [] then oldest else OldestStep(Oldest(oldest, values[..|values| - 1]), values[|values| - 1])
  }

  /** The push timestamps of a batch, in order. */
  function Timestamps(data: seq<ResultSet>): (ts: seq<int>)
    ensures |ts| == |data| && forall i | 0 <= i < |data| :: ts[i] == data[i].pushTimestamp
  {
    seq(|data|, i requires 0 <= i < |data| => data[i].pushTimestamp)
  }

  /** The ids of the jobs of a list of job elements, in order. */
  function JobIds(es: seq<JobEntry>): (ids: seq<int>)
    ensures |ids| == |es| && forall i | 0 <= i < |es| :: ids[i] == es[i].jobObj.id
  {
    seq(|es|, i requires 0 <= i < |es| => es[i].jobObj.id)
  }

  /** Filing two lists one after the other is filing the first, then the second over it. */
  lemma {:induction false} EntriesMapAppend(a: seq<JobEntry>, b: seq<JobEntry>)
    ensures EntriesMap(a + b) == EntriesMap(a) + EntriesMap(b)
  {
    if b != [] {
      var b' := b[..|b| - 1];
      var e := b[|b| - 1];
      EntriesMapAppend(a, b');
      assert (a + b)[..|a + b| - 1] == a + b' && (a + b)[|a + b| - 1] == e;
      var k := JobKey(e.jobObj.id);
      assert EntriesMap(b) == EntriesMap(b')[k := e];
      MapUnionUpdate(EntriesMap(a), EntriesMap(b'), k, e);
    } else {
      assert a + b == a;
    }
  }

  lemma MapUnionUpdate<K, V>(m1: map<K, V>, m2: map<K, V>, k: K, v: V)
    ensures m1 + m2[k := v] == (m1 + m2)[k := v]
  {
  }

  lemma JobIdsAppend(a: seq<JobEntry>, b: seq<JobEntry>)
    ensures JobIds(a + b) == JobIds(a) + JobIds(b)
  {
  }

  lemma MapUnionAssoc<K, V>(m1: map<K, V>, m2: map<K, V>, m3: map<K, V>)
    ensures m1 + m2 + m3 == m1 + (m2 + m3)
  {
  }

  lemma {:induction false} OldestAppend(oldest: int, a: seq<int>, b: seq<int>)
    ensures Oldest(oldest, a + b) == Oldest(Oldest(oldest, a), b)
  {
    if b != [] {
      var b' := b[..|b| - 1];
      OldestAppend(oldest, a, b');
      assert (a + b)[..|a + b| - 1] == a + b' && (a + b)[|a + b| - 1] == b[|b| - 1];
    } else {
      assert a + b == a;
    }
  }

  /** With positive values the marker is the running minimum: unset (0) only when nothing was
      seen, otherwise one of the values seen (or the old marker) and no larger than any. */
  lemma {:induction false} OldestIsMinimum(oldest: int, values: seq<int>)
    requires oldest >= 0
    requires forall i | 0 <= i < |values| :: values[i] > 0
    ensures Oldest(oldest, values) == 0 <==> oldest == 0 && values == []
    ensures Oldest(oldest, values) == oldest || Oldest(oldest, values) in values
    ensures forall i | 0 <= i < |values| :: Oldest(oldest, values) <= values[i]
    ensures oldest != 0 ==> Oldest(oldest, values) <= oldest
  {
    if values != [] {
      var prefix := values[..|values| - 1];
      OldestIsMinimum(oldest, prefix);
      assert forall i | 0 <= i < |prefix| :: prefix[i] == values[i];
    }
  }

  /** `!oldest` reads a zero value as unset, so a zero timestamp is forgotten by the next one:
      the marker is then not the minimum of what was seen. */
  lemma OldestForgetsZero()
    ensures Oldest(5, [0, 7]) == 7
  {
    assert [0, 7][..1] == [0];
  }

  // ---------------------------------------------------------------------------
  // The invariant linking the index to the display lists

  /** The contents of the display lists the index points into: the platforms of each result
      set, the groups of each platform and the jobs of each group. What mapResultSets files
      and the invariant are stated over such a value, so that both can be carried from one
      state to the next by ordinary lemmas; the engine takes it from the heap (`Snapshot`). */
  datatype Lists = Lists(platforms: map<ResultSet, seq<Platform>>,
                         groups: map<Platform, seq<Group>>,
                         jobs: map<Group, seq<Job>>)
  {
    /** The recorded list of an object, empty for an object not recorded. */
    function PlatformsOf(r: ResultSet): seq<Platform>
    {
      if r in platforms then platforms[r] else []
    }

    function GroupsOf(p: Platform): seq<Group>
    {
      if p in groups then groups[p] else []
    }

    function JobsOf(g: Group): seq<Job>
    {
      if g in jobs then jobs[g] else []
    }
  }

  /** `l` records the lists of the objects it covers as they are now. */
  predicate Current(l: Lists)
    reads l.platforms.Keys, l.groups.Keys, l.jobs.Keys
  {
    (forall r | r in l.platforms :: l.platforms[r] == r.platforms) &&
    (forall p | p in l.groups :: l.groups[p] == p.groups) &&
    (forall g | g in l.jobs :: l.jobs[g] == g.jobs)
  }

  /** The lists of the given objects as they are now. */
  function Snapshot(rs: set<ResultSet>, ps: set<Platform>, gs: set<Group>): (l: Lists)
    reads rs, ps, gs
    ensures l.platforms.Keys == rs && l.groups.Keys == ps && l.jobs.Keys == gs
    ensures Current(l)
  {
    Lists(map r | r in rs :: r.platforms, map p | p in ps :: p.groups, map g | g in gs :: g.jobs)
  }

  /** The platforms and the groups of a batch of result sets: what indexing it reads. */
  function PlatformsInBatch(data: seq<ResultSet>): set<Platform>
    reads set r | r in data
  {
    set r, p | r in data && p in r.platforms :: p
  }

  function GroupsInBatch(data: seq<ResultSet>): set<Group>
    reads (set r | r in data), PlatformsInBatch(data)
  {
    set r, p, g | r in data && p in r.platforms && g in p.groups :: g
  }

  /** `l` records every list reachable from the batch. */
  predicate Closed(data: seq<ResultSet>, l: Lists)
  {
    forall r | r in data :: r in l.platforms &&
      (forall p | p in l.platforms[r] :: p in l.groups && (forall g | g in l.groups[p] :: g in l.jobs))
  }

  /** A snapshot taken over the objects of a batch records all of the batch's lists. */
  lemma SnapshotClosed(data: seq<ResultSet>, rs: set<ResultSet>, ps: set<Platform>, gs: set<Group>)
    requires forall r | r in data :: r in rs
    requires PlatformsInBatch(data) <= ps && GroupsInBatch(data) <= gs
    ensures Closed(data, Snapshot(rs, ps, gs))
  {
    var l := Snapshot(rs, ps, gs);
    forall r | r in data
      ensures r in l.platforms &&
        (forall p | p in l.platforms[r] :: p in l.groups && (forall g | g in l.groups[p] :: g in l.jobs))
    {
      forall p | p in l.platforms[r]
        ensures p in l.groups && (forall g | g in l.groups[p] :: g in l.jobs)
      {
        assert p in PlatformsInBatch(data);
        forall g | g in l.groups[p]
          ensures g in l.jobs
        {
          assert g in GroupsInBatch(data);
        }
      }
    }
  }

  /** From `a` to `b` no list was dropped and every list only grew at its end. */
  predicate Grown(a: Lists, b: Lists)
  {
    (forall r | r in a.platforms :: r in b.platforms && a.platforms[r] <= b.platforms[r]) &&
    (forall p | p in a.groups :: p in b.groups && a.groups[p] <= b.groups[p]) &&
    (forall g | g in a.jobs :: g in b.jobs && a.jobs[g] <= b.jobs[g])
  }

  /** A job element is filed under its job's key and its job sits in its parent's list. */
  predicate JobEntryOk(jk: string, e: JobEntry, l: Lists)
  {
    jk == JobKey(e.jobObj.id) && e.parent in l.jobs && e.jobObj in l.jobs[e.parent]
  }

  /** A group element is filed under its group's name, its group's list is recorded, and each
      of its jobs is filed in it and sits in that list. */
  predicate GroupEntryOk(gk: string, ge: GroupEntry, l: Lists)
  {
    gk == ToPropertyKey(ge.grpObj.name) && ge.grpObj in l.jobs &&
    forall jk | jk in ge.jobs :: ge.jobs[jk].parent == ge.grpObj && JobEntryOk(jk, ge.jobs[jk], l)
  }

  /** Each group of a platform element sits in the platform's list. The platform key is not
      checked: getOrCreatePlatform files a platform under a key built from another field. */
  predicate PlatformEntryOk(pe: PlatformEntry, l: Lists)
  {
    pe.plObj in l.groups &&
    forall gk | gk in pe.groups ::
      pe.groups[gk].grpObj in l.groups[pe.plObj] && GroupEntryOk(gk, pe.groups[gk], l)
  }

  predicate RsEntryOk(rk: string, re: RsEntry, l: Lists)
  {
    rk == RsKey(re.rsObj.id) && re.rsObj in l.platforms &&
    forall pk | pk in re.platforms ::
      re.platforms[pk].plObj in l.platforms[re.rsObj] && PlatformEntryOk(re.platforms[pk], l)
  }

  /** The whole index agrees with the display: every result set it names is displayed and
      every element sits in the list of the element above it. */
  predicate IndexOk(m: map<string, RsEntry>, jm: map<string, JobEntry>, displayed: seq<ResultSet>,
                    l: Lists)
  {
    (forall rk | rk in m :: m[rk].rsObj in displayed && RsEntryOk(rk, m[rk], l)) &&
    (forall jk | jk in jm :: JobEntryOk(jk, jm[jk], l))
  }

  lemma GroupEntryOkGrown(gk: string, ge: GroupEntry, a: Lists, b: Lists)
    requires GroupEntryOk(gk, ge, a) && Grown(a, b)
    ensures GroupEntryOk(gk, ge, b)
  {
    forall jk | jk in ge.jobs
      ensures JobEntryOk(jk, ge.jobs[jk], b)
    {
      var e := ge.jobs[jk];
      assert e.parent in a.jobs && e.jobObj in a.jobs[e.parent];
      assert a.jobs[e.parent] <= b.jobs[e.parent];
    }
  }

  lemma PlatformEntryOkGrown(pe: PlatformEntry, a: Lists, b: Lists)
    requires PlatformEntryOk(pe, a) && Grown(a, b)
    ensures PlatformEntryOk(pe, b)
  {
    forall gk | gk in pe.groups
      ensures pe.groups[gk].grpObj in b.groups[pe.plObj] && GroupEntryOk(gk, pe.groups[gk], b)
    {
      assert a.groups[pe.plObj] <= b.groups[pe.plObj];
      GroupEntryOkGrown(gk, pe.groups[gk], a, b);
    }
  }

  lemma RsEntryOkGrown(rk: string, re: RsEntry, a: Lists, b: Lists)
    requires RsEntryOk(rk, re, a) && Grown(a, b)
    ensures RsEntryOk(rk, re, b)
  {
    forall pk | pk in re.platforms
      ensures re.platforms[pk].plObj in b.platforms[re.rsObj] && PlatformEntryOk(re.platforms[pk], b)
    {
      assert a.platforms[re.rsObj] <= b.platforms[re.rsObj];
      PlatformEntryOkGrown(re.platforms[pk], a, b);
    }
  }

  /** The invariant survives any step that only appends to display lists and keeps every
      displayed result set displayed. */
  lemma IndexOkGrown(m: map<string, RsEntry>, jm: map<string, JobEntry>,
                     displayed: seq<ResultSet>, displayed': seq<ResultSet>, a: Lists, b: Lists)
    requires IndexOk(m, jm, displayed, a) && Grown(a, b)
    requires forall r | r in displayed :: r in displayed'
    ensures IndexOk(m, jm, displayed', b)
  {
    forall rk | rk in m
      ensures m[rk].rsObj in displayed' && RsEntryOk(rk, m[rk], b)
    {
      RsEntryOkGrown(rk, m[rk], a, b);
    }
    forall jk | jk in jm
      ensures JobEntryOk(jk, jm[jk], b)
    {
      var e := jm[jk];
      assert e.parent in a.jobs && e.jobObj in a.jobs[e.parent];
      assert a.jobs[e.parent] <= b.jobs[e.parent];
    }
  }

  /** Filing more entries over a valid index keeps it valid: `_.extend`-style union of two
      valid indexes over the same lists. */
  lemma IndexOkUnion(m: map<string, RsEntry>, jm: map<string, JobEntry>,
                     m': map<string, RsEntry>, jm': map<string, JobEntry>, displayed: seq<ResultSet>, l: Lists)
    requires IndexOk(m, jm, displayed, l) && IndexOk(m', jm', displayed, l)
    ensures IndexOk(m + m', jm + jm', displayed, l)
  {
  }

  lemma GroupEntryOfOk(g: Group, l: Lists)
    requires g in l.jobs
    ensures GroupEntryOk(ToPropertyKey(g.name), GroupEntryOf(g, l), l)
  {
    EntriesMapFrom(JobEntries(l.jobs[g], g));
  }

  lemma PlatformEntryOfOk(p: Platform, l: Lists)
    requires p in l.groups && forall g | g in l.groups[p] :: g in l.jobs
    ensures PlatformEntryOk(PlatformEntryOf(p, l), l)
  {
    var gm := GroupsIndex(l.groups[p], l);
    GroupsIndexFrom(l.groups[p], l);
    forall gk | gk in gm
      ensures gm[gk].grpObj in l.groups[p] && GroupEntryOk(gk, gm[gk], l)
    {
      GroupEntryOfOk(gm[gk].grpObj, l);
    }
  }

  lemma RsEntryOfOk(r: ResultSet, l: Lists)
    requires r in l.platforms
    requires forall p | p in l.platforms[r] :: p in l.groups && (forall g | g in l.groups[p] :: g in l.jobs)
    ensures RsEntryOk(RsKey(r.id), RsEntryOf(r, l), l)
  {
    var pm := PlatformsIndex(l.platforms[r], l);
    PlatformsIndexFrom(l.platforms[r], l);
    forall pk | pk in pm
      ensures pm[pk].plObj in l.platforms[r] && PlatformEntryOk(pm[pk], l)
    {
      PlatformEntryOfOk(pm[pk].plObj, l);
    }
  }

  /** What mapResultSets files for a batch agrees with the batch's lists: every result-set,
      platform, group and job element it builds sits in the list of the element above it,
      and every jobMap element points at the group whose list holds its job. */
  lemma BatchIndexOk(data: seq<ResultSet>, l: Lists)
    requires Closed(data, l)
    ensures IndexOk(RsIndex(data, l), EntriesMap(BatchJobs(data, l)), data, l)
  {
    var m := RsIndex(data, l);
    RsIndexFrom(data, l);
    forall rk | rk in m
      ensures m[rk].rsObj in data && RsEntryOk(rk, m[rk], l)
    {
      RsEntryOfOk(m[rk].rsObj, l);
    }
    var es := BatchJobs(data, l);
    BatchJobsFrom(data, l);
    EntriesMapFrom(es);
  }

  /** The lists of a batch as they are now. */
  function BatchLists(data: seq<ResultSet>): (l: Lists)
    reads (set r | r in data), PlatformsInBatch(data), GroupsInBatch(data)
    ensures Closed(data, l) && Current(l)
    ensures l.platforms.Keys == set r | r in data
    ensures l.groups.Keys == PlatformsInBatch(data) && l.jobs.Keys == GroupsInBatch(data)
  {
    SnapshotClosed(data, (set r | r in data), PlatformsInBatch(data), GroupsInBatch(data));
    Snapshot((set r | r in data), PlatformsInBatch(data), GroupsInBatch(data))
  }

  /** Mapping a batch keeps the invariant: the old index stays valid as the lists grow, the
      batch's own elements are valid, and filing them over the old ones keeps both. */
  lemma MappedBatchOk(m: map<string, RsEntry>, jm: map<string, JobEntry>, d: seq<ResultSet>, d': seq<ResultSet>,
                      l0: Lists, data: seq<ResultSet>, l: Lists, l1: Lists)
    requires IndexOk(m, jm, d, l0) && Closed(data, l)
    requires Grown(l0, l1) && Grown(l, l1)
    requires forall r | r in d :: r in d'
    requires forall r | r in data :: r in d'
    ensures IndexOk(m + RsIndex(data, l), jm + EntriesMap(BatchJobs(data, l)), d', l1)
  {
    IndexOkGrown(m, jm, d, d', l0, l1);
    BatchIndexOk(data, l);
    IndexOkGrown(RsIndex(data, l), EntriesMap(BatchJobs(data, l)), data, d', l, l1);
    IndexOkUnion(m, jm, RsIndex(data, l), EntriesMap(BatchJobs(data, l)), d', l1);
  }

  // ---------------------------------------------------------------------------
  // What a mapped batch contains

  lemma {:induction false} RsIndexKeys(data: seq<ResultSet>, l: Lists)
    ensures forall r | r in data :: RsKey(r.id) in RsIndex(data, l)
  {
    if data != [] {
      RsIndexKeys(data[..|data| - 1], l);
      assert forall r | r in data :: r in data[..|data| - 1] || r == data[|data| - 1];
    }
  }

  lemma {:induction false} GroupsJobsCover(gs: seq<Group>, l: Lists)
    ensures forall g, j | g in gs && j in l.JobsOf(g) :: JobEntry(j, g) in GroupsJobs(gs, l)
  {
    if gs != [] {
      GroupsJobsCover(gs[..|gs| - 1], l);
      assert forall g | g in gs :: g in gs[..|gs| - 1] || g == gs[|gs| - 1];
    }
  }

  lemma {:induction false} PlatformsJobsCover(ps: seq<Platform>, l: Lists)
    ensures forall p, g, j | p in ps && g in l.GroupsOf(p) && j in l.JobsOf(g) :: JobEntry(j, g) in PlatformsJobs(ps, l)
  {
    if ps != [] {
      var p := ps[|ps| - 1];
      PlatformsJobsCover(ps[..|ps| - 1], l);
      GroupsJobsCover(l.GroupsOf(p), l);
      assert forall p' | p' in ps :: p' in ps[..|ps| - 1] || p' == p;
    }
  }

  lemma {:induction false} BatchJobsCover(data: seq<ResultSet>, l: Lists)
    ensures forall r, p, g, j | r in data && p in l.PlatformsOf(r) && g in l.GroupsOf(p) && j in l.JobsOf(g) ::
      JobEntry(j, g) in BatchJobs(data, l)
  {
    if data != [] {
      var r := data[|data| - 1];
      BatchJobsCover(data[..|data| - 1], l);
      PlatformsJobsCover(l.PlatformsOf(r), l);
      assert forall r' | r' in data :: r' in data[..|data| - 1] || r' == r;
    }
  }

  /** After mapping, every result set of the batch has an rsMap element and every job in every
      group of every platform of the batch has a jobMap element. */
  lemma BatchFiled(data: seq<ResultSet>, l: Lists)
    ensures forall r | r in data :: RsKey(r.id) in RsIndex(data, l)
    ensures forall r, p, g, j | r in data && p in l.PlatformsOf(r) && g in l.GroupsOf(p) && j in l.JobsOf(g) ::
      JobKey(j.id) in EntriesMap(BatchJobs(data, l))
  {
    RsIndexKeys(data, l);
    BatchJobsCover(data, l);
    var es := BatchJobs(data, l);
    EntriesMapFrom(es);
    forall r, p, g, j | r in data && p in l.PlatformsOf(r) && g in l.GroupsOf(p) && j in l.JobsOf(g)
      ensures JobKey(j.id) in EntriesMap(es)
    {
      var i :| 0 <= i < |es| && es[i] == JobEntry(j, g);
    }
  }

  /** When no two entries share a job id, each is filed under its key as it is: the jobMap
      element of every job then points at that job's own group. */
  lemma EntriesMapDistinct(es: seq<JobEntry>)
    requires forall i, j | 0 <= i < j < |es| :: es[i].jobObj.id != es[j].jobObj.id
    ensures forall i | 0 <= i < |es| ::
      JobKey(es[i].jobObj.id) in EntriesMap(es) && EntriesMap(es)[JobKey(es[i].jobObj.id)] == es[i]
  {
    EntriesMapFrom(es);
    var m := EntriesMap(es);
    forall i | 0 <= i < |es|
      ensures JobKey(es[i].jobObj.id) in m && m[JobKey(es[i].jobObj.id)] == es[i]
    {
      var e := m[JobKey(es[i].jobObj.id)];
      var j :| 0 <= j < |es| && es[j] == e;
      JobKeyInjective(e.jobObj.id, es[i].jobObj.id);
    }
  }

  // ---------------------------------------------------------------------------
  // Filing one job: getOrCreatePlatform, getOrCreateGroup and updateJob on the index

  /** `b` keeps every group element of `a` under its key with the same group, and every job
      key of that group element. */
  predicate PlatformEntryExtends(a: PlatformEntry, b: PlatformEntry)
  {
    b.plObj == a.plObj &&
    forall gk | gk in a.groups :: gk in b.groups && GroupEntryExtends(a.groups[gk], b.groups[gk])
  }

  predicate GroupEntryExtends(a: GroupEntry, b: GroupEntry)
  {
    b.grpObj == a.grpObj && a.jobs.Keys <= b.jobs.Keys
  }

  /** `b` is `a` with at most the element under `k` added or replaced. */
  predicate SameExcept<V(==)>(a: map<string, V>, b: map<string, V>, k: string)
  {
    b.Keys == a.Keys + {k} && forall k' | k' in a && k' != k :: b[k'] == a[k']
  }

  predicate RsEntryExtends(a: RsEntry, b: RsEntry)
  {
    b.rsObj == a.rsObj &&
    forall pk | pk in a.platforms :: pk in b.platforms && PlatformEntryExtends(a.platforms[pk], b.platforms[pk])
  }

  /** `b` has the result-set keys of `a` with the same result sets, and keeps every platform and
      group element of `a` under its key with the same object: entries are only added below. */
  predicate Extends(a: map<string, RsEntry>, b: map<string, RsEntry>)
  {
    a.Keys == b.Keys && forall rk | rk in a :: RsEntryExtends(a[rk], b[rk])
  }

  lemma ExtendsTransitive(a: map<string, RsEntry>, b: map<string, RsEntry>, c: map<string, RsEntry>)
    requires Extends(a, b) && Extends(b, c)
    ensures Extends(a, c)
  {
    forall rk | rk in a
      ensures RsEntryExtends(a[rk], c[rk])
    {
      forall pk | pk in a[rk].platforms
        ensures pk in c[rk].platforms && PlatformEntryExtends(a[rk].platforms[pk], c[rk].platforms[pk])
      {
        assert PlatformEntryExtends(b[rk].platforms[pk], c[rk].platforms[pk]);
      }
    }
  }

  /** The platform element under `pk` in result set `rk`: the one there, or a new one for `pl`
      with no groups. */
  function WithPlatform(m: map<string, RsEntry>, rk: string, pk: string, pl: Platform): (r: map<string, RsEntry>)
    requires rk in m
    ensures Extends(m, r) && pk in r[rk].platforms
    ensures pk in m[rk].platforms ==> r == m
    ensures pk !in m[rk].platforms ==> r[rk].platforms[pk] == PlatformEntry(pl, map[])
  {
    var re := m[rk];
    if pk in re.platforms then m
    else m[rk := re.(platforms := re.platforms[pk := PlatformEntry(pl, map[])])]
  }

  /** The group element under `gk` in platform `pk`: the one there, or a new one for `gr` with
      no jobs. */
  function WithGroup(m: map<string, RsEntry>, rk: string, pk: string, gk: string, gr: Group): (r: map<string, RsEntry>)
    requires rk in m && pk in m[rk].platforms
    ensures Extends(m, r) && gk in r[rk].platforms[pk].groups
    ensures gk in m[rk].platforms[pk].groups ==> r == m
    ensures gk !in m[rk].platforms[pk].groups ==> r[rk].platforms[pk].groups[gk] == GroupEntry(gr, map[])
  {
    var re := m[rk];
    var pe := re.platforms[pk];
    if gk in pe.groups then m
    else m[rk := re.(platforms := re.platforms[pk := pe.(groups := pe.groups[gk := GroupEntry(gr, map[])])])]
  }

  /** `grpMapElement.jobs[key] = e`. */
  function WithJob(m: map<string, RsEntry>, rk: string, pk: string, gk: string, jk: string, e: JobEntry): (r: map<string, RsEntry>)
    requires rk in m && pk in m[rk].platforms && gk in m[rk].platforms[pk].groups
    ensures Extends(m, r)
    ensures jk in r[rk].platforms[pk].groups[gk].jobs && r[rk].platforms[pk].groups[gk].jobs[jk] == e
  {
    var re := m[rk];
    var pe := re.platforms[pk];
    var ge := pe.groups[gk];
    m[rk := re.(platforms := re.platforms[pk := pe.(groups := pe.groups[gk := ge.(jobs := ge.jobs[jk := e])])])]
  }

  /** Creating a platform element changes nothing else: every other result-set element, and
      every other platform element of its result set, is kept as it was. */
  lemma WithPlatformFrame(m: map<string, RsEntry>, rk: string, pk: string, pl: Platform)
    requires rk in m
    ensures var r := WithPlatform(m, rk, pk, pl);
      SameExcept(m, r, rk) && SameExcept(m[rk].platforms, r[rk].platforms, pk)
  {
  }

  /** Creating a group element changes nothing else, at any level above it. */
  lemma WithGroupFrame(m: map<string, RsEntry>, rk: string, pk: string, gk: string, gr: Group)
    requires rk in m && pk in m[rk].platforms
    ensures var r := WithGroup(m, rk, pk, gk, gr);
      SameExcept(m, r, rk) && SameExcept(m[rk].platforms, r[rk].platforms, pk) &&
      SameExcept(m[rk].platforms[pk].groups, r[rk].platforms[pk].groups, gk)
  {
  }

  /** Filing a job element changes nothing else: the other job elements of its group element,
      and every other element above it, are kept as they were. */
  lemma WithJobFrame(m: map<string, RsEntry>, rk: string, pk: string, gk: string, jk: string, e: JobEntry)
    requires rk in m && pk in m[rk].platforms && gk in m[rk].platforms[pk].groups
    ensures var r := WithJob(m, rk, pk, gk, jk, e);
      SameExcept(m, r, rk) && SameExcept(m[rk].platforms, r[rk].platforms, pk) &&
      SameExcept(m[rk].platforms[pk].groups, r[rk].platforms[pk].groups, gk) &&
      SameExcept(m[rk].platforms[pk].groups[gk].jobs, r[rk].platforms[pk].groups[gk].jobs, jk)
  {
  }

  /** Get-or-create is idempotent: a second call with any new object finds the element the
      first one made, so at most one platform and one group are ever created for a key. */
  lemma GetOrCreateOnce(m: map<string, RsEntry>, rk: string, pk: string, pl: Platform, pl': Platform,
                        gk: string, gr: Group, gr': Group)
    requires rk in m
    ensures WithPlatform(WithPlatform(m, rk, pk, pl), rk, pk, pl') == WithPlatform(m, rk, pk, pl)
    ensures var m' := WithPlatform(m, rk, pk, pl);
      WithGroup(WithGroup(m', rk, pk, gk, gr), rk, pk, gk, gr') == WithGroup(m', rk, pk, gk, gr)
  {
  }

  /** Replacing one element by a valid one for the same object keeps the invariant, level by
      level. */
  lemma SetRsOk(m: map<string, RsEntry>, jm: map<string, JobEntry>, d: seq<ResultSet>, l: Lists,
                rk: string, re: RsEntry)
    requires IndexOk(m, jm, d, l) && rk in m && re.rsObj == m[rk].rsObj && RsEntryOk(rk, re, l)
    ensures IndexOk(m[rk := re], jm, d, l)
  {
  }

  lemma SetPlatformOk(rk: string, re: RsEntry, l: Lists, pk: string, pe: PlatformEntry)
    requires RsEntryOk(rk, re, l) && pe.plObj in l.platforms[re.rsObj] && PlatformEntryOk(pe, l)
    ensures RsEntryOk(rk, re.(platforms := re.platforms[pk := pe]), l)
  {
  }

  lemma SetGroupOk(pe: PlatformEntry, l: Lists, gk: string, ge: GroupEntry)
    requires PlatformEntryOk(pe, l) && ge.grpObj in l.groups[pe.plObj] && GroupEntryOk(gk, ge, l)
    ensures PlatformEntryOk(pe.(groups := pe.groups[gk := ge]), l)
  {
  }

  lemma SetJobOk(gk: string, ge: GroupEntry, l: Lists, jk: string, e: JobEntry)
    requires GroupEntryOk(gk, ge, l) && e.parent == ge.grpObj && JobEntryOk(jk, e, l)
    ensures GroupEntryOk(gk, ge.(jobs := ge.jobs[jk := e]), l)
  {
  }

  /** Creating a platform keeps the invariant when the new platform sits in its result set's
      list and its own group list is recorded. */
  lemma WithPlatformOk(m: map<string, RsEntry>, jm: map<string, JobEntry>, d: seq<ResultSet>, l: Lists,
                       rk: string, pk: string, pl: Platform)
    requires IndexOk(m, jm, d, l) && rk in m
    requires pk !in m[rk].platforms ==> pl in l.groups && pl in l.platforms[m[rk].rsObj]
    ensures IndexOk(WithPlatform(m, rk, pk, pl), jm, d, l)
  {
    if pk !in m[rk].platforms {
      var re := m[rk];
      SetPlatformOk(rk, re, l, pk, PlatformEntry(pl, map[]));
      SetRsOk(m, jm, d, l, rk, re.(platforms := re.platforms[pk := PlatformEntry(pl, map[])]));
    }
  }

  /** Creating a group keeps the invariant when it is filed under its name, sits in its
      platform's list and its own job list is recorded. */
  lemma WithGroupOk(m: map<string, RsEntry>, jm: map<string, JobEntry>, d: seq<ResultSet>, l: Lists,
                    rk: string, pk: string, gk: string, gr: Group)
    requires IndexOk(m, jm, d, l) && rk in m && pk in m[rk].platforms
    requires gk !in m[rk].platforms[pk].groups ==>
      gk == ToPropertyKey(gr.name) && gr in l.jobs && gr in l.groups[m[rk].platforms[pk].plObj]
    ensures IndexOk(WithGroup(m, rk, pk, gk, gr), jm, d, l)
  {
    var re := m[rk];
    var pe := re.platforms[pk];
    if gk !in pe.groups {
      var pe' := pe.(groups := pe.groups[gk := GroupEntry(gr, map[])]);
      SetGroupOk(pe, l, gk, GroupEntry(gr, map[]));
      SetPlatformOk(rk, re, l, pk, pe');
      SetRsOk(m, jm, d, l, rk, re.(platforms := re.platforms[pk := pe']));
    }
  }

  /** Filing a job in its group element and in jobMap keeps the invariant when the job sits in
      that group's list. */
  lemma WithJobOk(m: map<string, RsEntry>, jm: map<string, JobEntry>, d: seq<ResultSet>, l: Lists,
                  rk: string, pk: string, gk: string, jk: string, e: JobEntry)
    requires IndexOk(m, jm, d, l) && rk in m && pk in m[rk].platforms && gk in m[rk].platforms[pk].groups
    requires e.parent == m[rk].platforms[pk].groups[gk].grpObj && JobEntryOk(jk, e, l)
    ensures IndexOk(WithJob(m, rk, pk, gk, jk, e), jm[jk := e], d, l)
  {
    var re := m[rk];
    var pe := re.platforms[pk];
    var ge := pe.groups[gk];
    var ge' := ge.(jobs := ge.jobs[jk := e]);
    var pe' := pe.(groups := pe.groups[gk := ge']);
    SetJobOk(gk, ge, l, jk, e);
    SetGroupOk(pe, l, gk, ge');
    SetPlatformOk(rk, re, l, pk, pe');
    SetRsOk(m, jm, d, l, rk, re.(platforms := re.platforms[pk := pe']));
  }
}
