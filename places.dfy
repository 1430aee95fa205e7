/**
 * The pure parts of the places router: the records the points-of-interest
 * API returns, the ranking rule shared by the region path and the
 * name-search path (keep candidates with a truthy `name` and `rate`, sort
 * by rating, highest first and stable, keep ten), and the enrichment worker
 * that turns one candidate and its detail reply into a place summary or
 * nothing.
 *
 * Upstream JSON is modelled with the source's truthiness: a missing or
 * empty string is `""`, a missing or zero rating is `0`, and a coordinate
 * is `None` when absent.
 */
module Places {
  import opened Wrappers

  datatype Point = Point(lat: real, lon: real)

  /** One element of a radius-search reply. */
  datatype Candidate = Candidate(xid: string, name: string, rate: int, point: Option<Point>)

  /** One place summary returned for a region. */
  datatype PlaceSummary = PlaceSummary(
    xid: string, name: string, lat: Option<real>, lon: Option<real>, img: Option<string>, description: string)

  /** The reply to `places/xid/{xid}`: a thrown request, or a JSON body. */
  datatype DetailReply =
    | DetailThrew
    | DetailBody(name: string, point: Option<Point>, preview: string, wikiText: string)

  /** The reply to `places/geoname`. */
  datatype GeoReply = GeoThrew | GeoBody(lat: Option<real>, lon: Option<real>)

  /** `a || b` on two numbers that may be absent. */
  function OrElse(a: Option<real>, b: Option<real>): (r: Option<real>)
    ensures Truthy(a) ==> r == a
    ensures !Truthy(a) ==> r == b
  {
    if Truthy(a) then a else b
  }

  function LatOf(p: Option<Point>): Option<real> {
    if p.Some? then Some(p.value.lat) else None
  }

  function LonOf(p: Option<Point>): Option<real> {
    if p.Some? then Some(p.value.lon) else None
  }

  // ---------------------------------------------------------------
  // Ranking: filter, stable sort by rating descending, slice(0, 10)
  // ---------------------------------------------------------------

  /** The maximum number of places either path returns. */
  const TOP: nat := 10

  /** `p.name && p.rate`. */
  predicate Kept(c: Candidate) {
    c.name != "" && c.rate != 0
  }

  /** `.filter(p => p.name && p.rate)`. */
  function Keep(cs: seq<Candidate>): (r: seq<Candidate>)
    ensures |r| <= |cs|
    ensures forall c :: c in r <==> c in cs && Kept(c)
  {
    if cs == [] then [] else (if Kept(cs[0]) then [cs[0]] else []) + Keep(cs[1..])
  }

  /** The filter works element by element: filtering a concatenation concatenates the filtered parts, in order. */
  lemma {:induction false} KeepAppend(a: seq<Candidate>, b: seq<Candidate>)
    ensures Keep(a + b) == Keep(a) + Keep(b)
  {
    if a == [] {
      assert a + b == b;
    } else {
      assert (a + b)[0] == a[0];
      assert (a + b)[1..] == a[1..] + b;
      KeepAppend(a[1..], b);
    }
  }

  /** A kept candidate sits in the filtered list right after the kept candidates before it, so order and duplicates are kept. */
  lemma KeepInOrder(cs: seq<Candidate>, i: nat)
    requires i < |cs| && Kept(cs[i])
    ensures |Keep(cs[..i])| < |Keep(cs)| && Keep(cs)[|Keep(cs[..i])|] == cs[i]
  {
    assert cs == cs[..i] + cs[i..];
    KeepAppend(cs[..i], cs[i..]);
    assert cs[i..][0] == cs[i];
  }

  predicate SortedByRate(s: seq<Candidate>) {
    forall i, j :: 0 <= i < j < |s| ==> s[i].rate >= s[j].rate
  }

  /** Inserts `c` in front of the first element whose rating is not above its own. */
  function InsertByRate(c: Candidate, s: seq<Candidate>): (r: seq<Candidate>)
    ensures |r| == |s| + 1
    ensures multiset(r) == multiset(s) + multiset{c}
  {
    if s == [] || s[0].rate <= c.rate then [c] + s
    else
      assert s == [s[0]] + s[1..];
      [s[0]] + InsertByRate(c, s[1..])
  }

  /** Inserting into a list sorted by rating keeps it sorted. */
  lemma {:induction false} InsertSorted(c: Candidate, s: seq<Candidate>)
    requires SortedByRate(s)
    ensures SortedByRate(InsertByRate(c, s))
  {
    if s != [] && s[0].rate > c.rate {
      var t := InsertByRate(c, s[1..]);
      InsertSorted(c, s[1..]);
      forall k | 0 <= k < |t| ensures t[k].rate <= s[0].rate {
        assert t[k] in multiset(s[1..]) + multiset{c} by {
          assert t[k] in multiset(t);
        }
        if t[k] != c {
          var m :| 0 <= m < |s[1..]| && s[1..][m] == t[k];
          assert s[m + 1] == t[k];
        }
      }
      var r := [s[0]] + t;
      forall i, j | 0 <= i < j < |r| ensures r[i].rate >= r[j].rate {
        if i == 0 {
          assert r[j] == t[j - 1];
        } else {
          assert r[i] == t[i - 1] && r[j] == t[j - 1];
        }
      }
    }
  }

  /** `.sort((a, b) => b.rate - a.rate)`, which is stable. */
  function SortByRate(s: seq<Candidate>): (r: seq<Candidate>)
    ensures |r| == |s|
    ensures multiset(r) == multiset(s)
    ensures SortedByRate(r)
  {
    if s == [] then []
    else
      assert s == [s[0]] + s[1..];
      InsertSorted(s[0], SortByRate(s[1..]));
      InsertByRate(s[0], SortByRate(s[1..]))
  }

  /** The elements of `s` whose rating is `v`, in order. */
  function WithRate(s: seq<Candidate>, v: int): seq<Candidate> {
    if s == [] then [] else (if s[0].rate == v then [s[0]] else []) + WithRate(s[1..], v)
  }

  lemma {:induction false} InsertKeepsTies(c: Candidate, s: seq<Candidate>, v: int)
    ensures WithRate(InsertByRate(c, s), v) == (if c.rate == v then [c] else []) + WithRate(s, v)
  {
    if s == [] || s[0].rate <= c.rate {
      assert ([c] + s)[1..] == s;
    } else {
      var r := [s[0]] + InsertByRate(c, s[1..]);
      assert r[1..] == InsertByRate(c, s[1..]);
      InsertKeepsTies(c, s[1..], v);
    }
  }

  /** Stability: candidates with equal ratings keep their upstream order. */
  lemma {:induction false} SortIsStable(s: seq<Candidate>, v: int)
    ensures WithRate(SortByRate(s), v) == WithRate(s, v)
  {
    if s != [] {
      SortIsStable(s[1..], v);
      InsertKeepsTies(s[0], SortByRate(s[1..]), v);
    }
  }

  /** `.slice(0, n)`. */
  function Take<T>(s: seq<T>, n: nat): (r: seq<T>)
    ensures |r| == if |s| <= n then |s| else n
    ensures r == s[..|r|]
  {
    if |s| <= n then s else s[..n]
  }

  /** The ranking both paths apply to a radius-search reply. */
  function Rank(cs: seq<Candidate>): seq<Candidate> {
    Take(SortByRate(Keep(cs)), TOP)
  }

  /**
   * The ranking keeps at most ten candidates, each with a name and a
   * rating, highest rating first; they are the head of the stable
   * ordering of all kept candidates, so no candidate left out outranks one
   * kept.
   */
  lemma RankSpec(cs: seq<Candidate>)
    ensures |Rank(cs)| <= TOP
    ensures |Rank(cs)| == if |Keep(cs)| <= TOP then |Keep(cs)| else TOP
    ensures forall c :: c in Rank(cs) ==> c in cs && Kept(c)
    ensures SortedByRate(Rank(cs))
    ensures forall i, j :: 0 <= i < |Rank(cs)| <= j < |Keep(cs)| ==> SortByRate(Keep(cs))[j].rate <= Rank(cs)[i].rate
  {
    var kept := Keep(cs);
    var sorted := SortByRate(kept);
    var top := Rank(cs);
    assert top == sorted[..|top|];
    forall c | c in top ensures c in cs && Kept(c) {
      assert c in multiset(sorted);
      assert c in kept;
    }
    forall i, j | 0 <= i < |top| <= j < |kept| ensures sorted[j].rate <= top[i].rate {
      assert top[i] == sorted[i];
    }
    assert SortedByRate(top) by {
      forall i, j | 0 <= i < j < |top| ensures top[i].rate >= top[j].rate {
        assert top[i] == sorted[i] && top[j] == sorted[j];
      }
    }
  }

  lemma {:induction false} WithRateAppend(a: seq<Candidate>, b: seq<Candidate>, v: int)
    ensures WithRate(a + b, v) == WithRate(a, v) + WithRate(b, v)
  {
    if a == [] {
      assert a + b == b;
    } else {
      assert (a + b)[0] == a[0];
      assert (a + b)[1..] == a[1..] + b;
      WithRateAppend(a[1..], b, v);
    }
  }

  /**
   * Candidates with equal ratings appear in the ranking in their upstream
   * order: those of rating `v` in the ranking are the first ones of rating
   * `v` among the kept candidates, and all of them when nothing is cut.
   */
  lemma RankIsStable(cs: seq<Candidate>, v: int)
    ensures var tied := WithRate(Keep(cs), v);
            |WithRate(Rank(cs), v)| <= |tied| && WithRate(Rank(cs), v) == tied[..|WithRate(Rank(cs), v)|]
    ensures |Keep(cs)| <= TOP ==> WithRate(Rank(cs), v) == WithRate(Keep(cs), v)
  {
    var sorted := SortByRate(Keep(cs));
    SortIsStable(Keep(cs), v);
    var n := |Rank(cs)|;
    assert Rank(cs) == sorted[..n];
    assert sorted == sorted[..n] + sorted[n..];
    WithRateAppend(sorted[..n], sorted[n..], v);
  }

  // ---------------------------------------------------------------
  // Enrichment
  // ---------------------------------------------------------------

  /**
   * The `asyncPool` worker: no `xid`, a thrown detail request or a detail
   * body without a name gives `null`; otherwise a summary whose name is the
   * detail name, coordinates prefer the detail point, `img` is the preview
   * or `null` and `description` the Wikipedia extract or "".
   */
  function Enrich(c: Candidate, reply: DetailReply): (r: Option<PlaceSummary>)
    ensures r.Some? <==> c.xid != "" && reply.DetailBody? && reply.name != ""
    ensures r.Some? ==> r.value.xid == c.xid && r.value.name == reply.name
    ensures r.Some? ==> r.value.lat == OrElse(LatOf(reply.point), LatOf(c.point))
    ensures r.Some? ==> r.value.lon == OrElse(LonOf(reply.point), LonOf(c.point))
    ensures r.Some? ==> r.value.img == (if reply.preview != "" then Some(reply.preview) else None)
    ensures r.Some? ==> r.value.description == reply.wikiText
  {
    if c.xid == "" then None
    else match reply
      case DetailThrew => None
      case DetailBody(name, point, preview, wikiText) =>
        if name == "" then None
        else Some(PlaceSummary(
          c.xid, name,
          OrElse(LatOf(point), LatOf(c.point)),
          OrElse(LonOf(point), LonOf(c.point)),
          if preview != "" then Some(preview) else None,
          wikiText))
  }

  /** The worker applied to one candidate, with the detail reply for its `xid`. */
  function Worker(details: string -> DetailReply): Candidate -> Option<PlaceSummary> {
    (c: Candidate) => Enrich(c, details(c.xid))
  }

  /** `.filter(Boolean)` on the worker results: the present values, in order. */
  function Present<T(!new)>(s: seq<Option<T>>): (r: seq<T>)
    ensures |r| <= |s|
    ensures forall x :: x in r <==> Some(x) in s
  {
    if s == [] then []
    else
      var rest := Present(s[1..]);
      assert forall x :: Some(x) in s <==> Some(x) == s[0] || Some(x) in s[1..];
      if s[0].Some? then [s[0].value] + rest else rest
  }

  /** `.filter(Boolean)` works element by element: filtering a concatenation concatenates the filtered parts, in order. */
  lemma {:induction false} PresentAppend<T(!new)>(a: seq<Option<T>>, b: seq<Option<T>>)
    ensures Present(a + b) == Present(a) + Present(b)
  {
    if a == [] {
      assert a + b == b;
    } else {
      assert (a + b)[0] == a[0];
      assert (a + b)[1..] == a[1..] + b;
      PresentAppend(a[1..], b);
    }
  }

  /** A present value sits in the result right after the present values before it, so order and duplicates are kept. */
  lemma PresentInOrder<T(!new)>(s: seq<Option<T>>, i: nat)
    requires i < |s| && s[i].Some?
    ensures |Present(s[..i])| < |Present(s)| && Present(s)[|Present(s[..i])|] == s[i].value
  {
    assert s == s[..i] + s[i..];
    PresentAppend(s[..i], s[i..]);
    assert s[i..][0] == s[i];
  }

  function CountAbsent<T>(s: seq<Option<T>>): nat {
    if s == [] then 0 else (if s[0].None? then 1 else 0) + CountAbsent(s[1..])
  }

  /** Failed enrichments are dropped, not padded: `k` failures out of `n` leave `n - k` places. */
  lemma {:induction false} PresentCount<T(!new)>(s: seq<Option<T>>)
    ensures |Present(s)| == |s| - CountAbsent(s)
  {
    if s != [] {
      PresentCount(s[1..]);
    }
  }

  /** The enriched places for ranked candidates, in ranking order. */
  function EnrichAll(top: seq<Candidate>, details: string -> DetailReply): (r: seq<PlaceSummary>)
    ensures |r| <= |top|
    ensures forall p :: p in r ==> p.name != "" && p.xid != ""
  {
    var worked := seq(|top|, i requires 0 <= i < |top| => Enrich(top[i], details(top[i].xid)));
    assert forall p :: Some(p) in worked ==> p.name != "" && p.xid != "" by {
      forall p | Some(p) in worked ensures p.name != "" && p.xid != "" {
        var i :| 0 <= i < |top| && worked[i] == Some(p);
        assert worked[i] == Enrich(top[i], details(top[i].xid));
      }
    }
    Present(worked)
  }
}
