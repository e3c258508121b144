/**
 * The process-wide report cache that sits in front of every report builder:
 * a key-to-report map with `has`, `get`, `set` and `del`, and the
 * check-then-compute-then-store protocol each builder follows.
 */
module ReportCache {
  import opened Wrappers
  import opened Reports

  const DashboardKey: string := "admin-stats"
  const PieKey: string := "admin-pie-charts"
  const BarKey: string := "admin-bar-charts"
  const LineKey: string := "admin-line-charts"

  /** The four builders cache under four different keys. */
  lemma KeysDistinct()
    ensures DashboardKey != PieKey && DashboardKey != BarKey && DashboardKey != LineKey
    ensures PieKey != BarKey && PieKey != LineKey && BarKey != LineKey
  {
  }

  /** `r` is the kind of report the builder owning `key` produces. */
  predicate Fits(key: string, r: Report)
  {
    && (key == DashboardKey ==> r.Stats?)
    && (key == PieKey ==> r.Pie?)
    && (key == BarKey ==> r.Bar?)
    && (key == LineKey ==> r.Line?)
  }

  /** Every dashboard key holds a report of its own builder's kind. */
  ghost predicate WellKeyed(entries: map<string, Report>)
  {
    forall k :: k in entries ==> Fits(k, entries[k])
  }

  /** The report a builder returns together with the cache contents afterwards. */
  datatype Served = Served(report: Report, entries: map<string, Report>)

  /**
   * One builder call: on a hit the stored report is returned and nothing is
   * written; on a miss the freshly computed report is stored under `key`
   * and returned.
   */
  function Serve(entries: map<string, Report>, key: string, computed: Report): (s: Served)
    ensures key in entries ==> s.report == entries[key] && s.entries == entries
    ensures key !in entries ==> s.report == computed
    ensures key in s.entries && s.entries[key] == s.report
    ensures s.entries.Keys == entries.Keys + {key}
    ensures forall k :: k in entries && k != key ==> s.entries[k] == entries[k]
  {
    if key in entries then Served(entries[key], entries)
    else Served(computed, entries[key := computed])
  }

  /**
   * With no invalidation in between, a second call returns the identical
   * report and writes nothing, whatever it would have computed.
   */
  lemma ServeAgain(entries: map<string, Report>, key: string, computed: Report, computed': Report)
    ensures Serve(Serve(entries, key, computed).entries, key, computed') == Serve(entries, key, computed)
  {
  }

  /** Another builder's call in between does not disturb a cached report. */
  lemma ServeOtherKey(entries: map<string, Report>, key: string, other: string,
                      computed: Report, otherComputed: Report, computed': Report)
    requires key != other
    ensures Serve(Serve(Serve(entries, key, computed).entries, other, otherComputed).entries, key, computed').report
            == Serve(entries, key, computed).report
  {
  }

  /** The keys a `del(keys)` call removes. */
  function KeySet(keys: seq<string>): set<string>
  {
    set k | k in keys
  }

  /** After `Cache.Del` removes the key, the next call recomputes and stores the new report. */
  lemma ServeAfterDelete(entries: map<string, Report>, keys: seq<string>, key: string, computed: Report)
    requires key in keys
    ensures Serve(entries - KeySet(keys), key, computed)
            == Served(computed, (entries - KeySet(keys))[key := computed])
  {
  }

  /** Serving a report of the right kind keeps every dashboard key well kinded. */
  lemma ServeKeepsWellKeyed(entries: map<string, Report>, key: string, computed: Report)
    requires WellKeyed(entries) && Fits(key, computed)
    ensures WellKeyed(Serve(entries, key, computed).entries)
    ensures Fits(key, Serve(entries, key, computed).report)
  {
  }

  /** The cache object shared by all requests (node-cache's `myCache`). */
  class Cache {
    var entries: map<string, Report>

    constructor ()
      ensures entries == map[]
    {
      entries := map[];
    }

    method Has(key: string) returns (b: bool)
      ensures b <==> key in entries
    {
      b := key in entries;
    }

    /** The stored report, or None (undefined) when the key is absent. */
    method Get(key: string) returns (v: Option<Report>)
      ensures key in entries ==> v == Some(entries[key])
      ensures key !in entries ==> v == None
    {
      v := if key in entries then Some(entries[key]) else None;
    }

    method Set(key: string, value: Report)
      modifies this
      ensures entries == old(entries)[key := value]
    {
      entries := entries[key := value];
    }

    /** Invalidation: removes the given keys and nothing else. */
    method Del(keys: seq<string>)
      modifies this
      ensures entries == old(entries) - KeySet(keys)
    {
      entries := entries - KeySet(keys);
    }
  }
}
