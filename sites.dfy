/** Generation of the normalized random sites. The pseudo-random source is
    not modelled: the uniform draws it would produce are passed in, in the
    order the generator consumes them (x before y for each site). */
module Sites {
  import opened Geometry

  /** Number of sites the generator produces. */
  const SiteCount: nat := 10

  predicate InUnitInterval(v: real)
  {
    0.0 <= v < 1.0
  }

  /** Every coordinate of every site lies in the half-open unit square. */
  predicate InUnitSquare(ps: seq<Point>)
  {
    forall i :: 0 <= i < |ps| ==> InUnitInterval(ps[i].x) && InUnitInterval(ps[i].y)
  }

  /** Draws a uniform distribution over [0, 1) can produce: two per site. */
  predicate ValidDraws(draws: seq<real>)
  {
    |draws| == 2 * SiteCount &&
    forall i :: 0 <= i < |draws| ==> InUnitInterval(draws[i])
  }

  /** The sites the draws stand for: site `n` takes draws `2n` and `2n + 1`. */
  function SitesFrom(draws: seq<real>): seq<Point>
    requires |draws| == 2 * SiteCount
  {
    seq(SiteCount, n requires 0 <= n < SiteCount => Point(draws[2 * n], draws[2 * n + 1]))
  }

  /** Valid draws give exactly `SiteCount` sites, all inside the unit square. */
  lemma SitesFromInUnitSquare(draws: seq<real>)
    requires ValidDraws(draws)
    ensures |SitesFrom(draws)| == SiteCount && InUnitSquare(SitesFrom(draws))
  {
    var ps := SitesFrom(draws);
    forall i | 0 <= i < |ps|
      ensures InUnitInterval(ps[i].x) && InUnitInterval(ps[i].y)
    {
      assert ps[i] == Point(draws[2 * i], draws[2 * i + 1]);
    }
  }

  /** Builds the sites one by one, each from the next two draws. */
  method CreateBasePoints(draws: seq<real>) returns (result: seq<Point>)
    requires ValidDraws(draws)
    ensures |result| == SiteCount
    ensures InUnitSquare(result)
    ensures result == SitesFrom(draws)
  {
    result := [];
    var n := 0;
    while n < SiteCount
      invariant 0 <= n <= SiteCount
      invariant |result| == n
      invariant forall k :: 0 <= k < n ==> result[k] == Point(draws[2 * k], draws[2 * k + 1])
    {
      result := result + [Point(draws[2 * n], draws[2 * n + 1])];
      n := n + 1;
    }
    SitesFromInUnitSquare(draws);
  }
}
