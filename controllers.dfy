/**
 * The four dashboard endpoints: each checks the cache under its own key,
 * returns the stored report on a hit, and otherwise builds the report from
 * the store's answers, stores it under the key and returns it.
 */
module StatsController {
  import opened Wrappers
  import opened Features
  import opened Reports
  import opened Builders
  import opened ReportCache

  method GetDashboardStats(cache: Cache, q: DashboardQueries, u: Utils) returns (stats: Report)
    modifies cache
    ensures Served(stats, cache.entries)
            == Serve(old(cache.entries), DashboardKey, Stats(BuildDashboard(q, u)))
    ensures WellKeyed(old(cache.entries)) ==> WellKeyed(cache.entries) && stats.Stats?
  {
    var key := DashboardKey;
    var hit := cache.Has(key);
    if hit {
      var cached := cache.Get(key);
      stats := cached.value;
    } else {
      stats := Stats(BuildDashboard(q, u));
      cache.Set(key, stats);
    }
    if WellKeyed(old(cache.entries)) {
      ServeKeepsWellKeyed(old(cache.entries), key, Stats(BuildDashboard(q, u)));
    }
  }

  method GetPieCharts(cache: Cache, q: PieQueries, u: Utils) returns (charts: Report)
    modifies cache
    ensures Served(charts, cache.entries) == Serve(old(cache.entries), PieKey, Pie(BuildPie(q, u)))
    ensures WellKeyed(old(cache.entries)) ==> WellKeyed(cache.entries) && charts.Pie?
  {
    var key := PieKey;
    var hit := cache.Has(key);
    if hit {
      var cached := cache.Get(key);
      charts := cached.value;
    } else {
      charts := Pie(BuildPie(q, u));
      cache.Set(key, charts);
    }
    if WellKeyed(old(cache.entries)) {
      ServeKeepsWellKeyed(old(cache.entries), key, Pie(BuildPie(q, u)));
    }
  }

  method GetBarCharts(cache: Cache, q: BarQueries, u: Utils) returns (charts: Report)
    modifies cache
    ensures Served(charts, cache.entries) == Serve(old(cache.entries), BarKey, Bar(BuildBar(q, u)))
    ensures WellKeyed(old(cache.entries)) ==> WellKeyed(cache.entries) && charts.Bar?
  {
    var key := BarKey;
    var hit := cache.Has(key);
    if hit {
      var cached := cache.Get(key);
      charts := cached.value;
    } else {
      charts := Bar(BuildBar(q, u));
      cache.Set(key, charts);
    }
    if WellKeyed(old(cache.entries)) {
      ServeKeepsWellKeyed(old(cache.entries), key, Bar(BuildBar(q, u)));
    }
  }

  method GetLineCharts(cache: Cache, q: LineQueries, u: Utils) returns (charts: Report)
    modifies cache
    ensures Served(charts, cache.entries) == Serve(old(cache.entries), LineKey, Line(BuildLine(q, u)))
    ensures WellKeyed(old(cache.entries)) ==> WellKeyed(cache.entries) && charts.Line?
  {
    var key := LineKey;
    var hit := cache.Has(key);
    if hit {
      var cached := cache.Get(key);
      charts := cached.value;
    } else {
      charts := Line(BuildLine(q, u));
      cache.Set(key, charts);
    }
    if WellKeyed(old(cache.entries)) {
      ServeKeepsWellKeyed(old(cache.entries), key, Line(BuildLine(q, u)));
    }
  }
}
