/** Properties of the filter's per-event behaviour, stated over `Enrich`,
    the function that `GeoIP2Filter.Filter` is proved to implement. */
module GeoIP2Properties {
  import opened Wrappers
  import opened Values
  import opened GeoDb
  import opened GeoIP2

  /** A source value that is not a string, or a string that does not parse
      as an address, leaves the event as it was and reports failure. */
  lemma InvalidSourceLeavesEventUnchanged(
    plugin: GeoIP2Filter, fields: map<string, Value>, parseIP: string -> Option<IP>)
    requires !plugin.srcVR(fields).Str? || parseIP(plugin.srcVR(fields).s).None?
    ensures plugin.Enrich(fields, parseIP) == Outcome(fields, false)
  {
  }

  /** When neither tier knows the address, nothing is written: no partial
      result, and failure is reported. */
  lemma BothTiersMissLeavesEventUnchanged(
    plugin: GeoIP2Filter, fields: map<string, Value>, parseIP: string -> Option<IP>, ip: IP)
    requires plugin.srcVR(fields).Str? && parseIP(plugin.srcVR(fields).s) == Some(ip)
    requires plugin.db.city(ip).None? && plugin.db.isp(ip).None?
    ensures plugin.Enrich(fields, parseIP) == Outcome(fields, false)
  {
  }

  /** A city hit replaces whatever was under the target by the fresh city
      map, whose keys are exactly the city keys, and reports success. */
  lemma CityHitOverwritesTarget(
    plugin: GeoIP2Filter, fields: map<string, Value>, parseIP: string -> Option<IP>,
    ip: IP, record: CityRecord)
    requires plugin.srcVR(fields).Str? && parseIP(plugin.srcVR(fields).s) == Some(ip)
    requires plugin.db.city(ip) == Some(record)
    ensures var r := plugin.Enrich(fields, parseIP);
      && r.enriched
      && r.fields == fields[plugin.target := Map(CityGeoData(record, plugin.language))]
      && r.fields[plugin.target].m.Keys == CityKeys(record)
  {
  }

  /** On the ISP fallback over a prior string-keyed map, every prior entry
      survives unchanged (a prior `isp` included) and `isp` is added when it
      was not there. */
  lemma IspFallbackMergesPriorMap(
    plugin: GeoIP2Filter, fields: map<string, Value>, parseIP: string -> Option<IP>,
    ip: IP, ispRecord: IspRecord, prior: map<string, Value>)
    requires plugin.srcVR(fields).Str? && parseIP(plugin.srcVR(fields).s) == Some(ip)
    requires plugin.db.city(ip).None? && plugin.db.isp(ip) == Some(ispRecord)
    requires plugin.target in fields && fields[plugin.target] == Map(prior)
    ensures var r := plugin.Enrich(fields, parseIP);
      && r.enriched
      && r.fields[plugin.target].Map?
      && r.fields[plugin.target].m.Keys == prior.Keys + {"isp"}
      && (forall k :: k in prior ==> r.fields[plugin.target].m[k] == prior[k])
      && r.fields[plugin.target].m["isp"] == (if "isp" in prior then prior["isp"] else Str(ispRecord.isp))
  {
  }

  /** On the ISP fallback with nothing, or something other than a
      string-keyed map, under the target, the target becomes exactly
      `{isp: ISP}`. */
  lemma IspFallbackWithoutPriorMap(
    plugin: GeoIP2Filter, fields: map<string, Value>, parseIP: string -> Option<IP>,
    ip: IP, ispRecord: IspRecord)
    requires plugin.srcVR(fields).Str? && parseIP(plugin.srcVR(fields).s) == Some(ip)
    requires plugin.db.city(ip).None? && plugin.db.isp(ip) == Some(ispRecord)
    requires plugin.target !in fields || !fields[plugin.target].Map?
    ensures plugin.Enrich(fields, parseIP)
      == Outcome(fields[plugin.target := Map(map["isp" := Str(ispRecord.isp)])], true)
  {
  }

  /** On the ISP fallback, a prior map that already holds `isp` keeps its
      own `isp` value in place of the ISP just looked up. */
  lemma PriorIspEntryWins(
    plugin: GeoIP2Filter, fields: map<string, Value>, parseIP: string -> Option<IP>,
    ip: IP, ispRecord: IspRecord, prior: map<string, Value>)
    requires plugin.srcVR(fields).Str? && parseIP(plugin.srcVR(fields).s) == Some(ip)
    requires plugin.db.city(ip).None? && plugin.db.isp(ip) == Some(ispRecord)
    requires plugin.target in fields && fields[plugin.target] == Map(prior)
    requires "isp" in prior
    ensures var r := plugin.Enrich(fields, parseIP);
      && r.enriched
      && r.fields[plugin.target].Map?
      && r.fields[plugin.target].m["isp"] == prior["isp"]
  {
  }

  /** Filtering an event a second time changes nothing more, provided the
      source field reads the same after the first call (it would not if
      the source path pointed into the target field). */
  lemma EnrichIdempotent(plugin: GeoIP2Filter, fields: map<string, Value>, parseIP: string -> Option<IP>)
    requires plugin.srcVR(plugin.Enrich(fields, parseIP).fields) == plugin.srcVR(fields)
    ensures var once := plugin.Enrich(fields, parseIP);
      plugin.Enrich(once.fields, parseIP) == once
  {
    var once := plugin.Enrich(fields, parseIP);
    match Locate(plugin.srcVR(fields), parseIP, plugin.db)
    case Miss =>
    case CityHit(record) =>
    case IspHit(ispRecord) =>
      var m1 := IspGeoData(ispRecord, Existing(fields, plugin.target));
      assert once.fields == fields[plugin.target := Map(m1)];
      assert Existing(once.fields, plugin.target) == Some(Map(m1));
      assert IspGeoData(ispRecord, Some(Map(m1))) == m1;
  }
}
