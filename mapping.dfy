/** The four nested loops of mapResultSets (webapp/app/js/services/models/resultsets.js:58-119),
    innermost first. Each reads the display lists of one object and returns what it files;
    the caller stores it. The ghost `l` records those lists, and each loop is proved against
    the matching function of the Index module. */
module Mapping {
  import opened JsValues
  import opened Display
  import opened Index

  /** One turn of the jobs loop files one more job and sees one more id. */
  lemma IndexJobsStep(jobs: seq<Job>, g: Group, i: nat, oldestId: int)
    requires i < |jobs|
    ensures EntriesMap(JobEntries(jobs[..i + 1], g))
         == EntriesMap(JobEntries(jobs[..i], g))[JobKey(jobs[i].id) := JobEntry(jobs[i], g)]
    ensures Oldest(oldestId, JobIds(JobEntries(jobs[..i + 1], g)))
         == OldestStep(Oldest(oldestId, JobIds(JobEntries(jobs[..i], g))), jobs[i].id)
  {
    var before := JobEntries(jobs[..i], g);
    var e := JobEntry(jobs[i], g);
    assert jobs[..i + 1][..i] == jobs[..i];
    assert JobEntries(jobs[..i + 1], g) == before + [e];
    assert (before + [e])[..|before|] == before;
    assert JobIds(before + [e]) == JobIds(before) + [jobs[i].id];
    assert (JobIds(before) + [jobs[i].id])[..|before|] == JobIds(before);
  }

  /** The jobs loop: files every job of `g` under its key, in its group element and in
      `jobMap`, and keeps the oldest job id. */
  method IndexJobs(g: Group, ghost l: Lists, jobMap: map<string, JobEntry>, oldestId: int)
    returns (jobs: map<string, JobEntry>, jobMap': map<string, JobEntry>, oldestId': int)
    requires Current(l) && g in l.jobs
    ensures jobs == EntriesMap(JobEntries(l.JobsOf(g), g))
    ensures jobMap' == jobMap + jobs
    ensures oldestId' == Oldest(oldestId, JobIds(JobEntries(l.JobsOf(g), g)))
  {
    ghost var js := l.JobsOf(g);
    jobs, jobMap', oldestId' := map[], jobMap, oldestId;
    for i := 0 to |g.jobs|
      invariant jobs == EntriesMap(JobEntries(js[..i], g))
      invariant jobMap' == jobMap + jobs
      invariant oldestId' == Oldest(oldestId, JobIds(JobEntries(js[..i], g)))
    {
      var job := g.jobs[i];
      var key := JobKey(job.id);
      var e := JobEntry(job, g);
      IndexJobsStep(js, g, i, oldestId);
      MapUnionUpdate(jobMap, jobs, key, e);
      jobs := jobs[key := e];
      jobMap' := jobMap'[key := e];
      if oldestId' == 0 || oldestId' > job.id {
        oldestId' := job.id;
      }
    }
    assert js[..|js|] == js;
  }

  /** What the groups loop has built after its first `i` turns. */
  predicate GroupsLoopDone(gs: seq<Group>, i: nat, l: Lists, jobMap: map<string, JobEntry>, oldestId: int,
                           groups: map<string, GroupEntry>, jobMap': map<string, JobEntry>, oldestId': int)
    requires i <= |gs|
  {
    groups == GroupsIndex(gs[..i], l) &&
    jobMap' == jobMap + EntriesMap(GroupsJobs(gs[..i], l)) &&
    oldestId' == Oldest(oldestId, JobIds(GroupsJobs(gs[..i], l)))
  }

  lemma GroupsSnoc(gs: seq<Group>, i: nat, l: Lists)
    requires i < |gs|
    ensures GroupsIndex(gs[..i + 1], l) == GroupsIndex(gs[..i], l)[ToPropertyKey(gs[i].name) := GroupEntryOf(gs[i], l)]
    ensures GroupsJobs(gs[..i + 1], l) == GroupsJobs(gs[..i], l) + JobEntries(l.JobsOf(gs[i]), gs[i])
  {
    assert gs[..i + 1][..i] == gs[..i];
  }

  /** One turn of the groups loop files one more group and the jobs of that group. */
  lemma IndexGroupsStep(gs: seq<Group>, i: nat, l: Lists, jobMap: map<string, JobEntry>, oldestId: int,
                        groups: map<string, GroupEntry>, jobMap': map<string, JobEntry>, oldestId': int,
                        jobs: map<string, JobEntry>, jobMap'': map<string, JobEntry>, oldestId'': int)
    requires i < |gs|
    requires GroupsLoopDone(gs, i, l, jobMap, oldestId, groups, jobMap', oldestId')
    requires jobs == EntriesMap(JobEntries(l.JobsOf(gs[i]), gs[i]))
    requires jobMap'' == jobMap' + jobs
    requires oldestId'' == Oldest(oldestId', JobIds(JobEntries(l.JobsOf(gs[i]), gs[i])))
    ensures GroupsLoopDone(gs, i + 1, l, jobMap, oldestId, groups[ToPropertyKey(gs[i].name) := GroupEntry(gs[i], jobs)],
                           jobMap'', oldestId'')
  {
    var before := GroupsJobs(gs[..i], l);
    var added := JobEntries(l.JobsOf(gs[i]), gs[i]);
    GroupsSnoc(gs, i, l);
    EntriesMapAppend(before, added);
    MapUnionAssoc(jobMap, EntriesMap(before), EntriesMap(added));
    JobIdsAppend(before, added);
    OldestAppend(oldestId, JobIds(before), JobIds(added));
  }

  /** The groups loop: files every group of `p` under its name, with its jobs. */
  method IndexGroups(p: Platform, ghost l: Lists, jobMap: map<string, JobEntry>, oldestId: int)
    returns (groups: map<string, GroupEntry>, jobMap': map<string, JobEntry>, oldestId': int)
    requires Current(l) && p in l.groups && forall g | g in l.groups[p] :: g in l.jobs
    ensures groups == GroupsIndex(l.GroupsOf(p), l)
    ensures jobMap' == jobMap + EntriesMap(GroupsJobs(l.GroupsOf(p), l))
    ensures oldestId' == Oldest(oldestId, JobIds(GroupsJobs(l.GroupsOf(p), l)))
  {
    ghost var gs := l.GroupsOf(p);
    groups, jobMap', oldestId' := map[], jobMap, oldestId;
    assert gs[..0] == [];
    assert jobMap + map[] == jobMap;
    for i := 0 to |p.groups|
      invariant GroupsLoopDone(gs, i, l, jobMap, oldestId, groups, jobMap', oldestId')
    {
      var g := p.groups[i];
      var jobs, jobMap'', oldestId'' := IndexJobs(g, l, jobMap', oldestId');
      IndexGroupsStep(gs, i, l, jobMap, oldestId, groups, jobMap', oldestId', jobs, jobMap'', oldestId'');
      groups := groups[ToPropertyKey(g.name) := GroupEntry(g, jobs)];
      jobMap', oldestId' := jobMap'', oldestId'';
    }
    assert gs[..|gs|] == gs;
    assert GroupsLoopDone(gs, |gs|, l, jobMap, oldestId, groups, jobMap', oldestId');
  }

  /** What the platforms loop has built after its first `i` turns. */
  predicate PlatformsLoopDone(ps: seq<Platform>, i: nat, l: Lists, jobMap: map<string, JobEntry>, oldestId: int,
                              platforms: map<string, PlatformEntry>, jobMap': map<string, JobEntry>, oldestId': int)
    requires i <= |ps|
  {
    platforms == PlatformsIndex(ps[..i], l) &&
    jobMap' == jobMap + EntriesMap(PlatformsJobs(ps[..i], l)) &&
    oldestId' == Oldest(oldestId, JobIds(PlatformsJobs(ps[..i], l)))
  }

  lemma PlatformsSnoc(ps: seq<Platform>, i: nat, l: Lists)
    requires i < |ps|
    ensures PlatformsIndex(ps[..i + 1], l)
         == PlatformsIndex(ps[..i], l)[PlatformKey(ps[i].name, ps[i].option) := PlatformEntryOf(ps[i], l)]
    ensures PlatformsJobs(ps[..i + 1], l) == PlatformsJobs(ps[..i], l) + GroupsJobs(l.GroupsOf(ps[i]), l)
  {
    assert ps[..i + 1][..i] == ps[..i];
  }

  /** One turn of the platforms loop files one more platform with its groups and jobs. */
  lemma IndexPlatformsStep(ps: seq<Platform>, i: nat, l: Lists, jobMap: map<string, JobEntry>, oldestId: int,
                           platforms: map<string, PlatformEntry>, jobMap': map<string, JobEntry>, oldestId': int,
                           groups: map<string, GroupEntry>, jobMap'': map<string, JobEntry>, oldestId'': int)
    requires i < |ps|
    requires PlatformsLoopDone(ps, i, l, jobMap, oldestId, platforms, jobMap', oldestId')
    requires groups == GroupsIndex(l.GroupsOf(ps[i]), l)
    requires jobMap'' == jobMap' + EntriesMap(GroupsJobs(l.GroupsOf(ps[i]), l))
    requires oldestId'' == Oldest(oldestId', JobIds(GroupsJobs(l.GroupsOf(ps[i]), l)))
    ensures PlatformsLoopDone(ps, i + 1, l, jobMap, oldestId,
                              platforms[PlatformKey(ps[i].name, ps[i].option) := PlatformEntry(ps[i], groups)],
                              jobMap'', oldestId'')
  {
    var before := PlatformsJobs(ps[..i], l);
    var added := GroupsJobs(l.GroupsOf(ps[i]), l);
    PlatformsSnoc(ps, i, l);
    EntriesMapAppend(before, added);
    MapUnionAssoc(jobMap, EntriesMap(before), EntriesMap(added));
    JobIdsAppend(before, added);
    OldestAppend(oldestId, JobIds(before), JobIds(added));
  }

  /** The platforms loop: files every platform of `r` under its platform key, with its
      groups and jobs. */
  method IndexPlatforms(r: ResultSet, ghost l: Lists, jobMap: map<string, JobEntry>, oldestId: int)
    returns (platforms: map<string, PlatformEntry>, jobMap': map<string, JobEntry>, oldestId': int)
    requires Current(l) && r in l.platforms
    requires forall p | p in l.platforms[r] :: p in l.groups && forall g | g in l.groups[p] :: g in l.jobs
    ensures platforms == PlatformsIndex(l.PlatformsOf(r), l)
    ensures jobMap' == jobMap + EntriesMap(PlatformsJobs(l.PlatformsOf(r), l))
    ensures oldestId' == Oldest(oldestId, JobIds(PlatformsJobs(l.PlatformsOf(r), l)))
  {
    ghost var ps := l.PlatformsOf(r);
    platforms, jobMap', oldestId' := map[], jobMap, oldestId;
    assert ps[..0] == [];
    assert jobMap + map[] == jobMap;
    for i := 0 to |r.platforms|
      invariant PlatformsLoopDone(ps, i, l, jobMap, oldestId, platforms, jobMap', oldestId')
    {
      var p := r.platforms[i];
      var groups, jobMap'', oldestId'' := IndexGroups(p, l, jobMap', oldestId');
      IndexPlatformsStep(ps, i, l, jobMap, oldestId, platforms, jobMap', oldestId', groups, jobMap'', oldestId'');
      platforms := platforms[PlatformKey(p.name, p.option) := PlatformEntry(p, groups)];
      jobMap', oldestId' := jobMap'', oldestId'';
    }
    assert ps[..|ps|] == ps;
    assert PlatformsLoopDone(ps, |ps|, l, jobMap, oldestId, platforms, jobMap', oldestId');
  }

  /** What the result-set loop has built after its first `i` turns. */
  predicate BatchLoopDone(data: seq<ResultSet>, i: nat, l: Lists, rsMap: map<string, RsEntry>,
                          jobMap: map<string, JobEntry>, oldestTs: int, oldestId: int,
                          rsMap': map<string, RsEntry>, jobMap': map<string, JobEntry>, oldestTs': int, oldestId': int)
    requires i <= |data|
  {
    rsMap' == rsMap + RsIndex(data[..i], l) &&
    jobMap' == jobMap + EntriesMap(BatchJobs(data[..i], l)) &&
    oldestTs' == Oldest(oldestTs, Timestamps(data[..i])) &&
    oldestId' == Oldest(oldestId, JobIds(BatchJobs(data[..i], l)))
  }

  lemma BatchSnoc(data: seq<ResultSet>, i: nat, l: Lists)
    requires i < |data|
    ensures RsIndex(data[..i + 1], l) == RsIndex(data[..i], l)[RsKey(data[i].id) := RsEntryOf(data[i], l)]
    ensures BatchJobs(data[..i + 1], l) == BatchJobs(data[..i], l) + PlatformsJobs(l.PlatformsOf(data[i]), l)
    ensures Timestamps(data[..i + 1]) == Timestamps(data[..i]) + [data[i].pushTimestamp]
  {
    var d := data[..i + 1];
    assert d[..|d| - 1] == data[..i] && d[|d| - 1] == data[i];
    TimestampsSnoc(data[..i], data[i]);
    assert d == data[..i] + [data[i]];
  }

  lemma TimestampsSnoc(data: seq<ResultSet>, r: ResultSet)
    ensures Timestamps(data + [r]) == Timestamps(data) + [r.pushTimestamp]
  {
  }

  /** One turn of the result-set loop files one more result set with its platforms, groups
      and jobs, and sees one more push timestamp. */
  lemma IndexBatchStep(data: seq<ResultSet>, i: nat, l: Lists, rsMap: map<string, RsEntry>,
                       jobMap: map<string, JobEntry>, oldestTs: int, oldestId: int,
                       rsMap': map<string, RsEntry>, jobMap': map<string, JobEntry>, oldestTs': int, oldestId': int,
                       platforms: map<string, PlatformEntry>, jobMap'': map<string, JobEntry>, oldestId'': int)
    requires i < |data|
    requires BatchLoopDone(data, i, l, rsMap, jobMap, oldestTs, oldestId, rsMap', jobMap', oldestTs', oldestId')
    requires platforms == PlatformsIndex(l.PlatformsOf(data[i]), l)
    requires jobMap'' == jobMap' + EntriesMap(PlatformsJobs(l.PlatformsOf(data[i]), l))
    requires oldestId'' == Oldest(oldestId', JobIds(PlatformsJobs(l.PlatformsOf(data[i]), l)))
    ensures BatchLoopDone(data, i + 1, l, rsMap, jobMap, oldestTs, oldestId,
                          rsMap'[RsKey(data[i].id) := RsEntry(data[i], platforms)], jobMap'',
                          OldestStep(oldestTs', data[i].pushTimestamp), oldestId'')
  {
    var before := BatchJobs(data[..i], l);
    var added := PlatformsJobs(l.PlatformsOf(data[i]), l);
    BatchSnoc(data, i, l);
    EntriesMapAppend(before, added);
    MapUnionAssoc(jobMap, EntriesMap(before), EntriesMap(added));
    JobIdsAppend(before, added);
    OldestAppend(oldestId, JobIds(before), JobIds(added));
    OldestSnoc(oldestTs, Timestamps(data[..i]), data[i].pushTimestamp);
    MapUnionUpdate(rsMap, RsIndex(data[..i], l), RsKey(data[i].id), RsEntryOf(data[i], l));
  }

  lemma OldestSnoc(oldest: int, values: seq<int>, v: int)
    ensures Oldest(oldest, values + [v]) == OldestStep(Oldest(oldest, values), v)
  {
    assert (values + [v])[..|values|] == values;
  }

  /** The result-set loop: files every result set of the batch under `String(id)` with its
      platforms, groups and jobs, and keeps the oldest push timestamp and job id. */
  method IndexBatch(data: seq<ResultSet>, ghost l: Lists, rsMap: map<string, RsEntry>,
                    jobMap: map<string, JobEntry>, oldestTs: int, oldestId: int)
    returns (rsMap': map<string, RsEntry>, jobMap': map<string, JobEntry>, oldestTs': int, oldestId': int)
    requires Current(l) && Closed(data, l)
    ensures rsMap' == rsMap + RsIndex(data, l)
    ensures jobMap' == jobMap + EntriesMap(BatchJobs(data, l))
    ensures oldestTs' == Oldest(oldestTs, Timestamps(data))
    ensures oldestId' == Oldest(oldestId, JobIds(BatchJobs(data, l)))
  {
    rsMap', jobMap', oldestTs', oldestId' := rsMap, jobMap, oldestTs, oldestId;
    assert data[..0] == [];
    assert rsMap + map[] == rsMap && jobMap + map[] == jobMap;
    for i := 0 to |data|
      invariant BatchLoopDone(data, i, l, rsMap, jobMap, oldestTs, oldestId, rsMap', jobMap', oldestTs', oldestId')
    {
      var r := data[i];
      assert r in data;
      var platforms, jobMap'', oldestId'' := IndexPlatforms(r, l, jobMap', oldestId');
      IndexBatchStep(data, i, l, rsMap, jobMap, oldestTs, oldestId, rsMap', jobMap', oldestTs', oldestId',
                     platforms, jobMap'', oldestId'');
      rsMap' := rsMap'[RsKey(r.id) := RsEntry(r, platforms)];
      if oldestTs' == 0 || oldestTs' > r.pushTimestamp {
        oldestTs' := r.pushTimestamp;
      }
      jobMap', oldestId' := jobMap'', oldestId'';
    }
    assert data[..|data|] == data;
  }
}
