/** `AdminSystemService` (backend): the system health report and cache
    clearing of the admin area. The database probe, the DLQ count and the
    clock are readings passed in; the cache manager is a class whose caches
    are cleared in place. */
module AdminSystem {
  import opened Wrappers
  import opened JavaLang

  const MILLIS_PER_HOUR: int := 1000 * 60 * 60
  const MILLIS_PER_MINUTE: int := 1000 * 60

  /** `determineSystemStatus`: the database first, then the DLQ threshold
      (more than 10 messages). */
  function SystemStatus(databaseUp: bool, dlqCount: int): (s: string)
    ensures s == "CRITICAL" <==> !databaseUp
    ensures s == "WARNING" <==> databaseUp && dlqCount > 10
    ensures s == "HEALTHY" <==> databaseUp && dlqCount <= 10
  {
    if !databaseUp then "CRITICAL" else if dlqCount > 10 then "WARNING" else "HEALTHY"
  }

  /** The boundary cases: ten messages, and the -1 of a failed count, are
      still healthy. */
  lemma StatusBoundaries()
    ensures SystemStatus(true, 10) == "HEALTHY" && SystemStatus(true, 11) == "WARNING"
    ensures SystemStatus(true, -1) == "HEALTHY" && SystemStatus(false, 0) == "CRITICAL"
  {
  }

  /** The readings one health report takes. The source probes the database
      twice and reads the DLQ count twice, so the two of each may differ. */
  datatype Readings = Readings(databaseForStatus: bool, databaseForReport: bool, dlqForStatus: int,
                               dlqForReport: int, uptimeMillis: int, memoryUsage: string, cpuUsage: string,
                               checkedAt: int)

  /** `SystemHealthDto`, with the services map as three flags. */
  datatype SystemHealth = SystemHealth(status: string, databaseConnection: bool, uptime: string,
                                       memoryUsage: string, cpuUsage: string, dlqMessageCount: int,
                                       lastCheck: int, databaseService: bool, dlqService: bool,
                                       cacheService: bool)

  /** `getSystemHealth`: the "database" service flag is the reported
      connection, "dlq" holds exactly when the reported count is 0, and
      "cache" when there is a cache manager. */
  function SystemHealthOf(rd: Readings, hasCacheManager: bool): (h: SystemHealth)
    ensures h.status == SystemStatus(rd.databaseForStatus, rd.dlqForStatus)
    ensures h.databaseConnection == rd.databaseForReport && h.databaseService == h.databaseConnection
    ensures h.dlqMessageCount == rd.dlqForReport && (h.dlqService <==> rd.dlqForReport == 0)
    ensures h.cacheService == hasCacheManager
    ensures h.uptime == Uptime(rd.uptimeMillis) && h.lastCheck == rd.checkedAt
  {
    SystemHealth(SystemStatus(rd.databaseForStatus, rd.dlqForStatus), rd.databaseForReport,
                 Uptime(rd.uptimeMillis), rd.memoryUsage, rd.cpuUsage, rd.dlqForReport, rd.checkedAt,
                 rd.databaseForReport, rd.dlqForReport == 0, hasCacheManager)
  }

  /** When the two readings of each agree, the report is consistent: it is
      critical exactly when it shows the database down, and a healthy
      report with a working DLQ flag has an empty DLQ. */
  lemma ConsistentReport(rd: Readings, hasCacheManager: bool)
    requires rd.databaseForStatus == rd.databaseForReport && rd.dlqForStatus == rd.dlqForReport
    ensures var h := SystemHealthOf(rd, hasCacheManager);
      (h.status == "CRITICAL" <==> !h.databaseService)
      && (h.status == "WARNING" ==> !h.dlqService)
      && (h.dlqService ==> h.status != "WARNING")
  {
  }

  /** Hours and minutes of an uptime, each with Java's division that
      truncates toward zero. */
  function UptimeParts(millis: int): (hm: (int, int))
    ensures millis >= 0 ==> 0 <= hm.1 < 60 && hm.0 >= 0
    ensures millis >= 0 ==>
      hm.0 * MILLIS_PER_HOUR + hm.1 * MILLIS_PER_MINUTE <= millis < hm.0 * MILLIS_PER_HOUR + (hm.1 + 1) * MILLIS_PER_MINUTE
    ensures millis < 0 ==> -60 < hm.1 <= 0 && hm.0 <= 0
  {
    var hours := TruncDiv(millis, MILLIS_PER_HOUR);
    var rest := TruncRem(millis, MILLIS_PER_HOUR);
    (hours, TruncDiv(rest, MILLIS_PER_MINUTE))
  }

  /** `getSystemUptime`: "<hours>h <minutes>m". */
  function Uptime(millis: int): (s: string)
  {
    var hm := UptimeParts(millis);
    IntToString(hm.0) + "h " + IntToString(hm.1) + "m"
  }

  /** Two uptimes that print the same lie in the same minute. */
  lemma UptimeIsWholeMinutes(a: int, b: int)
    requires 0 <= a && 0 <= b && UptimeParts(a) == UptimeParts(b)
    ensures -MILLIS_PER_MINUTE < a - b < MILLIS_PER_MINUTE
  {
  }

  /** An example: 1 hour 30 minutes 59 seconds prints as "1h 30m". */
  lemma UptimeExample()
    ensures Uptime(5_459_000) == "1h 30m"
  {
    assert UptimeParts(5_459_000) == (1, 30);
  }

  /** A cache manager: the names it lists, and the caches it can return
      (`getCache` gives null for a name without one). */
  class CacheManager {
    const cacheNames: seq<string>
    var caches: map<string, map<string, string>>

    constructor (names: seq<string>, caches: map<string, map<string, string>>)
      ensures cacheNames == names && this.caches == caches
    {
      cacheNames := names;
      this.caches := caches;
    }
  }

  /** The caches after clearing every listed one that exists. */
  function Cleared(caches: map<string, map<string, string>>, names: seq<string>)
    : (r: map<string, map<string, string>>)
    ensures r.Keys == caches.Keys
    ensures forall k :: k in r ==> r[k] == if k in names then map[] else caches[k]
  {
    map k | k in caches :: if k in names then map[] else caches[k]
  }

  /** `clearSystemCache`: no manager, nothing to do; otherwise each listed
      name whose cache exists has that cache emptied, and the names without
      a cache are skipped. */
  method ClearSystemCache(manager: CacheManager?)
    modifies if manager != null then {manager} else {}
    ensures manager != null ==> manager.caches == Cleared(old(manager.caches), manager.cacheNames)
  {
    if manager == null {
      return;
    }
    var i := 0;
    while i < |manager.cacheNames|
      invariant 0 <= i <= |manager.cacheNames|
      invariant manager.caches == Cleared(old(manager.caches), manager.cacheNames[..i])
    {
      var name := manager.cacheNames[i];
      if name in manager.caches {
        manager.caches := manager.caches[name := map[]];
      }
      assert manager.cacheNames[..i + 1] == manager.cacheNames[..i] + [name];
      i := i + 1;
    }
    assert manager.cacheNames[..i] == manager.cacheNames;
  }

  /** Clearing twice leaves what clearing once left. */
  lemma ClearedIdempotent(caches: map<string, map<string, string>>, names: seq<string>)
    ensures Cleared(Cleared(caches, names), names) == Cleared(caches, names)
  {
  }
}
