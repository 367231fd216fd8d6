/**
 * The trends service (src/services/trends.service.ts): it asks an upstream
 * feed for the stories of the day (or of the moment), sorts them by traffic,
 * most traffic first, keeps the first `maxIdeas` and hands on their titles.
 *
 * The feed itself is outside the model: its answer is a parameter, either the
 * list of stories or the error the request raised.
 */
module Trends {
  import opened Wrappers
  import opened Types

  /** Which upstream feed a fetch asks. */
  datatype TrendsKind = Daily | RealTime

  /** The settings a trends service is built with. */
  datatype TrendsService = TrendsService(geo: string, lang: string, maxIdeas: nat)

  const DefaultGeo := "BR"
  const DefaultLang := "pt"
  const DefaultMaxIdeas: nat := 5

  /** The one error each fetch raises, whatever went wrong upstream. */
  function FailureMessage(kind: TrendsKind): string
  {
    match kind
    case Daily => "Failed to get trending topics from Google Trends"
    case RealTime => "Failed to get real-time trending topics from Google Trends"
  }

  /** The constructor: an argument left undefined takes its default. */
  function NewTrendsService(geo: Option<string>, lang: Option<string>, maxIdeas: Option<nat>): (svc: TrendsService)
    ensures svc.geo == (if geo.Some? then geo.value else "BR")
    ensures svc.lang == (if lang.Some? then lang.value else "pt")
    ensures svc.maxIdeas == (if maxIdeas.Some? then maxIdeas.value else 5)
  {
    TrendsService(
      if geo.Some? then geo.value else DefaultGeo,
      if lang.Some? then lang.value else DefaultLang,
      if maxIdeas.Some? then maxIdeas.value else DefaultMaxIdeas)
  }

  /** Most traffic first: no story is followed by one with more traffic. */
  predicate NonIncreasing(s: seq<TrendingStory>)
  {
    forall i, j :: 0 <= i < j < |s| ==> s[i].traffic >= s[j].traffic
  }

  /** A story with no less traffic than the head of a ranked list keeps it ranked when put in front. */
  lemma ConsNonIncreasing(y: TrendingStory, r: seq<TrendingStory>)
    requires NonIncreasing(r) && (r == [] || y.traffic >= r[0].traffic)
    ensures NonIncreasing([y] + r)
  {
    var c := [y] + r;
    forall i, j | 0 <= i < j < |c|
      ensures c[i].traffic >= c[j].traffic
    {
      assert c[j] == r[j - 1];
      if i == 0 {
        assert r[0].traffic >= r[j - 1].traffic;
      } else {
        assert c[i] == r[i - 1];
      }
    }
  }

  /** What follows the head of a ranked list is ranked, and starts no higher than the head. */
  lemma TailNonIncreasing(s: seq<TrendingStory>)
    requires NonIncreasing(s) && s != []
    ensures NonIncreasing(s[1..]) && (|s| > 1 ==> s[0].traffic >= s[1..][0].traffic)
  {
  }

  /**
   * The step of `Insert` past a head with more traffic than `x`: if `rest`
   * ranks the tail with `x` added, the head in front of it ranks the whole
   * list with `x` added.
   */
  lemma InsertPastHead(x: TrendingStory, s: seq<TrendingStory>, rest: seq<TrendingStory>)
    requires NonIncreasing(s) && s != [] && s[0].traffic > x.traffic
    requires NonIncreasing(rest) && multiset(rest) == multiset(s[1..]) + multiset{x}
    requires |rest| == |s| && (rest[0] == x || (s[1..] != [] && rest[0] == s[1..][0]))
    ensures NonIncreasing([s[0]] + rest)
    ensures multiset([s[0]] + rest) == multiset(s) + multiset{x}
  {
    TailNonIncreasing(s);
    ConsNonIncreasing(s[0], rest);
    assert s == [s[0]] + s[1..];
  }

  /**
   * Places `x` in a list already ranked, in front of the first story whose
   * traffic does not exceed its own, so that it stays ahead of the stories
   * of equal traffic that came after it in the feed.
   */
  function Insert(x: TrendingStory, s: seq<TrendingStory>): (r: seq<TrendingStory>)
    requires NonIncreasing(s)
    ensures NonIncreasing(r)
    ensures multiset(r) == multiset(s) + multiset{x}
    ensures |r| == |s| + 1 && (r[0] == x || (s != [] && r[0] == s[0]))
  {
    if s == [] || s[0].traffic <= x.traffic then
      ConsNonIncreasing(x, s);
      [x] + s
    else
      TailNonIncreasing(s);
      var rest := Insert(x, s[1..]);
      InsertPastHead(x, s, rest);
      [s[0]] + rest
  }

  /**
   * The comparator `b.traffic - a.traffic` given to the array's stable sort:
   * most traffic first, ties kept in feed order.
   */
  function SortByTraffic(s: seq<TrendingStory>): (r: seq<TrendingStory>)
    ensures NonIncreasing(r)
    ensures multiset(r) == multiset(s)
    ensures |r| == |s|
  {
    if s == [] then []
    else
      assert s == [s[0]] + s[1..];
      Insert(s[0], SortByTraffic(s[1..]))
  }

  /** The stories of traffic `t`, in order. */
  function WithTraffic(s: seq<TrendingStory>, t: real): seq<TrendingStory>
  {
    if s == [] then []
    else (if s[0].traffic == t then [s[0]] else []) + WithTraffic(s[1..], t)
  }

  /** Filtering a list with one more story in front filters that story, then the rest. */
  lemma WithTrafficCons(x: TrendingStory, s: seq<TrendingStory>, t: real)
    ensures WithTraffic([x] + s, t) == (if x.traffic == t then [x] else []) + WithTraffic(s, t)
  {
    assert ([x] + s)[1..] == s;
  }

  /** Past a head with more traffic, `Insert` keeps the head and inserts into the tail. */
  lemma InsertUnfold(x: TrendingStory, s: seq<TrendingStory>)
    requires NonIncreasing(s) && s != [] && s[0].traffic > x.traffic
    ensures NonIncreasing(s[1..])
    ensures Insert(x, s) == [s[0]] + Insert(x, s[1..])
  {
  }

  /** Inserting a story into a ranked list places it just ahead of the ranked stories of its own traffic. */
  lemma {:induction false} InsertKeepsTies(x: TrendingStory, s: seq<TrendingStory>, t: real)
    requires NonIncreasing(s)
    ensures WithTraffic(Insert(x, s), t) == (if x.traffic == t then [x] else []) + WithTraffic(s, t)
  {
    if s == [] || s[0].traffic <= x.traffic {
      WithTrafficCons(x, s, t);
    } else {
      var tail := s[1..];
      InsertUnfold(x, s);
      var r := Insert(x, tail);
      InsertKeepsTies(x, tail, t);
      WithTrafficCons(s[0], r, t);
      WithTrafficCons(s[0], tail, t);
      assert s == [s[0]] + tail;
      if s[0].traffic == t {
        // x has less traffic than s[0], so it is not of traffic t
        assert WithTraffic(r, t) == WithTraffic(tail, t);
        assert WithTraffic(Insert(x, s), t) == WithTraffic(s, t);
      } else {
        assert WithTraffic(Insert(x, s), t) == WithTraffic(r, t);
        assert WithTraffic(s, t) == WithTraffic(tail, t);
      }
    }
  }

  /**
   * The sort is stable: among stories of the same traffic, the ranked list
   * keeps the order in which the feed gave them.
   */
  lemma {:induction false} SortIsStable(s: seq<TrendingStory>, t: real)
    ensures WithTraffic(SortByTraffic(s), t) == WithTraffic(s, t)
  {
    if s != [] {
      SortIsStable(s[1..], t);
      InsertKeepsTies(s[0], SortByTraffic(s[1..]), t);
    }
  }

  /**
   * The stories kept: the first `maxIdeas` of the ranked feed (all of them
   * when the feed is shorter). They are the `maxIdeas` stories of most
   * traffic, most traffic first: every story left out has no more traffic
   * than any story kept.
   */
  function Rank(stories: seq<TrendingStory>, maxIdeas: nat): (top: seq<TrendingStory>)
    ensures |top| == Min(maxIdeas, |stories|)
    ensures NonIncreasing(top)
    ensures multiset(top) <= multiset(stories)
    ensures forall left | left in multiset(stories) - multiset(top) ::
              forall i | 0 <= i < |top| :: left.traffic <= top[i].traffic
  {
    var sorted := SortByTraffic(stories);
    var k := Min(maxIdeas, |stories|);
    PrefixIsTopK(sorted, k, multiset(stories));
    sorted[..k]
  }

  /** Cutting a list splits its multiset into the stories kept and the stories left out. */
  lemma SplitMultiset(sorted: seq<TrendingStory>, k: nat)
    requires k <= |sorted|
    ensures multiset(sorted[..k]) <= multiset(sorted)
    ensures multiset(sorted) - multiset(sorted[..k]) == multiset(sorted[k..])
  {
    assert sorted == sorted[..k] + sorted[k..];
    assert multiset(sorted) == multiset(sorted[..k]) + multiset(sorted[k..]);
  }

  /** In a ranked list, no story after the cut has more traffic than a story before it. */
  lemma RankedCut(sorted: seq<TrendingStory>, k: nat)
    requires NonIncreasing(sorted) && k <= |sorted|
    ensures forall j, i | k <= j < |sorted| && 0 <= i < k :: sorted[j].traffic <= sorted[i].traffic
  {
  }

  /** Cutting a ranked list anywhere leaves nothing behind that outranks what is kept. */
  lemma PrefixIsTopK(sorted: seq<TrendingStory>, k: nat, whole: multiset<TrendingStory>)
    requires NonIncreasing(sorted) && k <= |sorted| && multiset(sorted) == whole
    ensures multiset(sorted[..k]) <= whole
    ensures forall left | left in whole - multiset(sorted[..k]) ::
              forall i | 0 <= i < |sorted[..k]| :: left.traffic <= sorted[..k][i].traffic
  {
    SplitMultiset(sorted, k);
    RankedCut(sorted, k);
    var top := sorted[..k];
    forall left: TrendingStory | left in whole - multiset(top)
      ensures forall i | 0 <= i < |top| :: left.traffic <= top[i].traffic
    {
      assert left in sorted[k..];
      var j :| k <= j < |sorted| && sorted[j] == left;
      forall i | 0 <= i < |top|
        ensures left.traffic <= top[i].traffic
      {
        assert top[i] == sorted[i];
      }
    }
  }

  function Titles(s: seq<TrendingStory>): (r: seq<string>)
    ensures |r| == |s|
    ensures forall i :: 0 <= i < |s| ==> r[i] == s[i].title
  {
    seq(|s|, i requires 0 <= i < |s| => s[i].title)
  }

  /** The titles of the kept stories, in ranked order. */
  function TopTitles(stories: seq<TrendingStory>, maxIdeas: nat): (r: seq<string>)
    ensures |r| == Min(maxIdeas, |stories|)
    ensures maxIdeas == 0 ==> r == []
    ensures forall i :: 0 <= i < |r| ==> r[i] == Rank(stories, maxIdeas)[i].title
  {
    Titles(Rank(stories, maxIdeas))
  }

  /**
   * `fetchDailyTrends` / `fetchRealTimeTrends`: both apply the same ranking
   * to the feed's answer; any failure of the request, or of reading its
   * answer, becomes the fixed error of that feed and never a partial list.
   */
  function Fetch(svc: TrendsService, kind: TrendsKind, reply: Result<seq<TrendingStory>, string>): (r: Result<seq<string>, string>)
    ensures r.Err? <==> reply.Err?
    ensures r.Err? ==> r.error == FailureMessage(kind)
    ensures r.Ok? ==> |r.value| == Min(svc.maxIdeas, |reply.value|)
    ensures r.Ok? ==> r.value == TopTitles(reply.value, svc.maxIdeas)
  {
    match reply
    case Ok(stories) => Ok(TopTitles(stories, svc.maxIdeas))
    case Err(_) => Err(FailureMessage(kind))
  }

  /** The daily and the real-time fetch rank an answer identically; only their error differs. */
  lemma FeedsRankAlike(svc: TrendsService, reply: Result<seq<TrendingStory>, string>)
    ensures Fetch(svc, Daily, reply).Ok? <==> Fetch(svc, RealTime, reply).Ok?
    ensures Fetch(svc, Daily, reply).Ok? ==> Fetch(svc, Daily, reply) == Fetch(svc, RealTime, reply)
    ensures FailureMessage(Daily) != FailureMessage(RealTime)
  {
    assert |FailureMessage(Daily)| != |FailureMessage(RealTime)|;
  }

  /** A story with no less traffic than the head of a ranked list goes in front of it. */
  lemma InsertFront(x: TrendingStory, s: seq<TrendingStory>)
    requires NonIncreasing(s) && (s == [] || s[0].traffic <= x.traffic)
    ensures Insert(x, s) == [x] + s
  {
  }

  /** Two stories already in traffic order keep that order. */
  lemma SortTwo(b: TrendingStory, c: TrendingStory)
    requires b.traffic >= c.traffic
    ensures SortByTraffic([b, c]) == [b, c]
  {
    assert [c][1..] == [] && [b, c][1..] == [c];
    InsertFront(c, []);
    InsertFront(b, [c]);
  }

  /** Three stories of traffic 10, 30, 20 are ranked second, first, third. */
  lemma RankThreeStories(a: TrendingStory, b: TrendingStory, c: TrendingStory)
    requires a.traffic == 10.0 && b.traffic == 30.0 && c.traffic == 20.0
    ensures SortByTraffic([a, b, c]) == [b, c, a]
  {
    SortTwo(b, c);
    assert [a, b, c][1..] == [b, c];
    assert SortByTraffic([a, b, c]) == Insert(a, [b, c]);
    InsertFront(a, []);
    InsertUnfold(a, [c]);
    InsertUnfold(a, [b, c]);
  }

  /** Of those three stories, the two of most traffic are kept, most traffic first. */
  lemma KeepTwoOfThree(a: TrendingStory, b: TrendingStory, c: TrendingStory)
    requires a.traffic == 10.0 && b.traffic == 30.0 && c.traffic == 20.0
    ensures Rank([a, b, c], 2) == [b, c]
  {
    RankThreeStories(a, b, c);
  }

  /** Stories A, B, C of traffic 10, 30, 20, two ideas wanted: B and C are handed on, in that order. */
  lemma TopTwoOfThree(a: TrendingStory, b: TrendingStory, c: TrendingStory)
    requires a.title == "A" && b.title == "B" && c.title == "C"
    requires a.traffic == 10.0 && b.traffic == 30.0 && c.traffic == 20.0
    ensures TopTitles([a, b, c], 2) == ["B", "C"]
  {
    KeepTwoOfThree(a, b, c);
    var r := TopTitles([a, b, c], 2);
    assert r[0] == "B" && r[1] == "C";
  }
}
