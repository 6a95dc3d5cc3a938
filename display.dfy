/** The display model of ThResultSetModel (webapp/app/js/services/models/resultsets.js):
    result sets holding platforms, platforms holding groups, groups holding jobs. These are
    the objects the page watches and the engine pushes into in place, so they are classes;
    the index entries refer to them. This module also holds the pure helpers of that file:
    the job and platform keys and the result-set ordering. */
module Display {
  import opened JsValues

  /** A job record as fetched: a numeric id and the rest of its fields (`result_set_id`,
      `platform`, `option`, `platform_opt`, `job_group_name`, `job_group_symbol`, ...). */
  class Job {
    const id: int
    var fields: Record

    constructor (id: int, fields: Record)
      ensures this.id == id && this.fields == fields
    {
      this.id := id;
      this.fields := fields;
    }
  }

  class Group {
    const name: JsValue
    const symbol: JsValue
    var jobs: seq<Job>

    /** A group as getOrCreateGroup builds it: a name, a symbol and no jobs yet. */
    constructor (name: JsValue, symbol: JsValue)
      ensures this.name == name && this.symbol == symbol && jobs == []
    {
      this.name := name;
      this.symbol := symbol;
      jobs := [];
    }
  }

  class Platform {
    const name: JsValue
    const option: JsValue
    var groups: seq<Group>

    /** A platform as getOrCreatePlatform builds it: a name, an option and no groups yet. */
    constructor (name: JsValue, option: JsValue)
      ensures this.name == name && this.option == option && groups == []
    {
      this.name := name;
      this.option := option;
      groups := [];
    }
  }

  class ResultSet {
    const id: int
    const pushTimestamp: int
    const revision: string
    const revisionsUri: string
    var platforms: seq<Platform>
    var revisions: seq<Record>

    constructor (id: int, pushTimestamp: int, revision: string, revisionsUri: string, platforms: seq<Platform>)
      ensures this.id == id && this.pushTimestamp == pushTimestamp
      ensures this.revision == revision && this.revisionsUri == revisionsUri
      ensures this.platforms == platforms && revisions == []
    {
      this.id := id;
      this.pushTimestamp := pushTimestamp;
      this.revision := revision;
      this.revisionsUri := revisionsUri;
      this.platforms := platforms;
      revisions := [];
    }
  }

  // ---------------------------------------------------------------------------
  // Keys

  /** `'key' + job.id`: the jobMap key of a job. */
  function JobKey(id: int): (k: string)
    ensures |k| > 3 && k[..3] == "key"
  {
    "key" + IntToString(id)
  }

  /** Distinct job ids never share a jobMap entry. */
  lemma JobKeyInjective(a: int, b: int)
    ensures JobKey(a) == JobKey(b) <==> a == b
  {
    if JobKey(a) == JobKey(b) {
      assert IntToString(a) == JobKey(a)[3..];
      assert IntToString(b) == JobKey(b)[3..];
      IntToStringInjective(a, b);
    }
  }

  /** The rsMap key of a result-set id, `String(id)`. */
  function RsKey(id: int): string
  {
    IntToString(id)
  }

  /** `getPlatformKey(name, option)`: `name` itself when `option` is `undefined` or `null`,
      otherwise `name + option` under JavaScript's `+`, used as a property key. The `+`
      concatenates when either side is a string; on numbers it adds, `null` counting as 0
      and `undefined` giving NaN. */
  function PlatformKey(name: JsValue, option: JsValue): string
  {
    if IsNullish(option) then ToPropertyKey(name)
    else if name.Str? || option.Str? then ToPropertyKey(name) + ToPropertyKey(option)
    else match name
      case Num(n) => IntToString(n + option.n)
      case Null => IntToString(option.n)
      case Undefined => "NaN"
  }

  /** For the string names and options the server sends: the name alone when there is no
      option, otherwise name and option with no separator. */
  lemma PlatformKeyOfStrings(name: string, option: JsValue)
    requires option.Str? || IsNullish(option)
    ensures PlatformKey(Str(name), option) == if option.Str? then name + option.s else name
  {
  }

  /** The key does not tell platforms apart: "linux" with option "64" and "linux6" with option
      "4" share one, and so do a missing option and an empty one. */
  lemma {:induction false} PlatformKeyNotInjective()
    ensures PlatformKey(Str("linux"), Str("64")) == PlatformKey(Str("linux6"), Str("4"))
    ensures PlatformKey(Str("linux"), Str("")) == PlatformKey(Str("linux"), Undefined)
  {
    assert "linux" + "64" == "linux6" + "4";
    assert "linux" + "" == "linux";
  }

  // ---------------------------------------------------------------------------
  // Ordering of result sets

  /** `rsCompare`: newer (larger push timestamp) first. */
  function RsCompare(a: ResultSet, b: ResultSet): (c: int)
    ensures c == -1 <==> a.pushTimestamp > b.pushTimestamp
    ensures c == 1 <==> a.pushTimestamp < b.pushTimestamp
    ensures c == 0 <==> a.pushTimestamp == b.pushTimestamp
  {
    if a.pushTimestamp > b.pushTimestamp then -1
    else if a.pushTimestamp < b.pushTimestamp then 1
    else 0
  }

  /** The comparator is a consistent total preorder: antisymmetric and transitive. */
  lemma RsCompareConsistent(a: ResultSet, b: ResultSet, c: ResultSet)
    ensures RsCompare(a, b) == -RsCompare(b, a)
    ensures RsCompare(a, b) <= 0 && RsCompare(b, c) <= 0 ==> RsCompare(a, c) <= 0
  {
  }

  /** Sorted by `rsCompare`: no result set precedes a newer one. */
  predicate SortedDesc(s: seq<ResultSet>)
  {
    forall i, j | 0 <= i < j < |s| :: s[i].pushTimestamp >= s[j].pushTimestamp
  }

  /** Insert `x` into a sorted list before the first element that is older than it, so that
      it comes after every element with its own timestamp. */
  function Insert(x: ResultSet, s: seq<ResultSet>): (r: seq<ResultSet>)
    requires SortedDesc(s)
    ensures SortedDesc(r)
    ensures |r| == |s| + 1
    ensures forall k | 0 <= k < |r| :: r[k] == x || r[k] in s
  {
    if s == [] || RsCompare(x, s[0]) < 0 then [x] + s
    else
      var r' := Insert(x, s[1..]);
      assert forall k | 0 <= k < |r'| :: r'[k].pushTimestamp <= s[0].pushTimestamp;
      [s[0]] + r'
  }

  /** Inserting adds exactly `x`. */
  lemma {:induction false} InsertPermutes(x: ResultSet, s: seq<ResultSet>)
    requires SortedDesc(s)
    ensures multiset(Insert(x, s)) == multiset(s) + multiset{x}
  {
    if s != [] && RsCompare(x, s[0]) >= 0 {
      InsertPermutes(x, s[1..]);
      assert s == [s[0]] + s[1..];
    }
  }

  /** `resultSets.sort(rsCompare)`: a stable insertion sort, as ECMAScript requires of
      `Array.prototype.sort` since its 2019 edition. */
  function Sort(s: seq<ResultSet>): (r: seq<ResultSet>)
    ensures SortedDesc(r)
    ensures |r| == |s|
  {
    if s == [] then [] else Insert(s[|s| - 1], Sort(s[..|s| - 1]))
  }

  /** Sorting only reorders: the sorted list holds the same result sets, as often. */
  lemma {:induction false} SortPermutes(s: seq<ResultSet>)
    ensures multiset(Sort(s)) == multiset(s)
  {
    if s != [] {
      var init, last := s[..|s| - 1], s[|s| - 1];
      SortPermutes(init);
      InsertPermutes(last, Sort(init));
      assert s == init + [last];
      assert multiset(s) == multiset(init) + multiset{last};
    }
  }

  /** Sorting keeps every element, so nothing already in the list is lost by a later sort. */
  lemma SortKeeps(s: seq<ResultSet>, x: ResultSet)
    ensures x in Sort(s) <==> x in s
  {
    SortPermutes(s);
    assert x in multiset(Sort(s)) <==> x in multiset(s);
  }

  /** The result sets of `s` pushed at time `t`, in their order in `s`. */
  function Ties(s: seq<ResultSet>, t: int): (r: seq<ResultSet>)
    ensures |r| <= |s|
  {
    if s == [] then []
    else (if s[0].pushTimestamp == t then [s[0]] else []) + Ties(s[1..], t)
  }

  lemma {:induction false} TiesConcat(a: seq<ResultSet>, b: seq<ResultSet>, t: int)
    ensures Ties(a + b, t) == Ties(a, t) + Ties(b, t)
  {
    if a == [] {
      assert a + b == b;
    } else {
      var c, head := a + b, if a[0].pushTimestamp == t then [a[0]] else [];
      assert c[0] == a[0] && c[1..] == a[1..] + b;
      TiesConcat(a[1..], b, t);
      assert Ties(c, t) == head + Ties(a[1..] + b, t);
      assert Ties(a, t) == head + Ties(a[1..], t);
    }
  }

  /** A list whose every element is newer than `t` has no ties at `t`. */
  lemma {:induction false} TiesNone(s: seq<ResultSet>, t: int)
    requires forall k | 0 <= k < |s| :: s[k].pushTimestamp < t
    ensures Ties(s, t) == []
  {
    if s != [] {
      TiesNone(s[1..], t);
    }
  }

  lemma TiesSingle(x: ResultSet, t: int)
    ensures Ties([x], t) == if x.pushTimestamp == t then [x] else []
  {
    assert [x][1..] == [];
  }

  /** `x` placed in front of a list of older result sets comes after all its ties there. */
  lemma TiesPrepend(x: ResultSet, s: seq<ResultSet>, t: int)
    requires forall k | 0 <= k < |s| :: s[k].pushTimestamp < x.pushTimestamp
    ensures Ties([x] + s, t) == Ties(s, t) + (if x.pushTimestamp == t then [x] else [])
  {
    var xs := [x] + s;
    assert xs[0] == x && xs[1..] == s;
    if x.pushTimestamp == t {
      TiesNone(s, t);
    }
  }

  /** Putting the same element in front of two lists with equal ties keeps them equal. */
  lemma TiesCons(y: ResultSet, a: seq<ResultSet>, b: seq<ResultSet>, extra: seq<ResultSet>, t: int)
    requires Ties(a, t) == Ties(b, t) + extra
    ensures Ties([y] + a, t) == Ties([y] + b, t) + extra
  {
    var ya, yb, h := [y] + a, [y] + b, if y.pushTimestamp == t then [y] else [];
    assert ya[0] == y && ya[1..] == a;
    assert yb[0] == y && yb[1..] == b;
    assert Ties(ya, t) == h + Ties(a, t);
    assert Ties(yb, t) == h + Ties(b, t);
  }

  /** Inserting `x` puts it after every element of its own timestamp. */
  lemma {:induction false} TiesInsert(x: ResultSet, s: seq<ResultSet>, t: int)
    requires SortedDesc(s)
    ensures Ties(Insert(x, s), t) == Ties(s, t) + (if x.pushTimestamp == t then [x] else [])
  {
    if s == [] || RsCompare(x, s[0]) < 0 {
      assert Insert(x, s) == [x] + s;
      forall k | 0 <= k < |s|
        ensures s[k].pushTimestamp < x.pushTimestamp
      {
        assert s[0].pushTimestamp >= s[k].pushTimestamp;
      }
      TiesPrepend(x, s, t);
    } else {
      assert Insert(x, s) == [s[0]] + Insert(x, s[1..]);
      TiesInsert(x, s[1..], t);
      TiesCons(s[0], Insert(x, s[1..]), s[1..], if x.pushTimestamp == t then [x] else [], t);
      assert s == [s[0]] + s[1..];
    }
  }

  /** Sorting is stable: result sets with one timestamp keep their relative order. */
  lemma {:induction false} SortStable(s: seq<ResultSet>, t: int)
    ensures Ties(Sort(s), t) == Ties(s, t)
  {
    if s != [] {
      var init, last := s[..|s| - 1], s[|s| - 1];
      assert Sort(s) == Insert(last, Sort(init));
      SortStable(init, t);
      TiesInsert(last, Sort(init), t);
      assert s == init + [last];
      TiesConcat(init, [last], t);
      TiesSingle(last, t);
    }
  }

  /** Two result sets pushed at the same time stay in the order they came in. */
  lemma SortKeepsTiedPair(a: ResultSet, b: ResultSet)
    requires a.pushTimestamp == b.pushTimestamp
    ensures Sort([a, b]) == [a, b]
  {
    assert [a, b][..1] == [a];
    assert [a][..0] == [];
  }
}
