/** The GeoIP2 enrichment filter: construction from a configuration, and the
    per-event filter that resolves a source field to an IP address, looks it
    up in the city tier and then in the ISP tier, and writes what it found
    under the target field. */
module GeoIP2 {
  import opened Wrappers
  import opened Values
  import opened GeoDb

  /** The options the filter reads from its configuration map; a missing
      option is `None`. */
  datatype Config = Config(
    src: Option<string>,
    language: Option<string>,
    target: Option<string>,
    dbPath: Option<string>)

  /** The construction failures, each of which aborts start-up. */
  datatype NewError = MissingSrc | MissingDbPath | OpenFailed(path: string)

  /** What the two-tier lookup found for a source value. */
  datatype Lookup = CityHit(city: CityRecord) | IspHit(isp: IspRecord) | Miss

  /** What the filter gives back: the event's fields after the call, and
      whether enrichment succeeded. */
  datatype Outcome = Outcome(fields: map<string, Value>, enriched: bool)

  /** The keys written on the city path. */
  function CityKeys(record: CityRecord): set<string> {
    {"timezone", "city_name", "country_name", "location"}
      + (if |record.subdivisions| > 0 then {"region_name"} else {})
  }

  /** Validation and the two-tier lookup: the source value must be a string
      that parses as an address; the city tier is asked first, the ISP tier
      only when the city tier misses. */
  function Locate(v: Value, parseIP: string -> Option<IP>, db: Reader): (l: Lookup)
    ensures !v.Str? || parseIP(v.s).None? ==> l == Miss
    ensures v.Str? && parseIP(v.s).Some? ==>
      var ip := parseIP(v.s).value;
      && (db.city(ip).Some? ==> l == CityHit(db.city(ip).value))
      && (db.city(ip).None? && db.isp(ip).Some? ==> l == IspHit(db.isp(ip).value))
      && (db.city(ip).None? && db.isp(ip).None? ==> l == Miss)
  {
    if !v.Str? then Miss
    else
      match parseIP(v.s)
      case None => Miss
      case Some(ip) =>
        match db.city(ip)
        case Some(record) => CityHit(record)
        case None =>
          match db.isp(ip)
          case Some(ispRecord) => IspHit(ispRecord)
          case None => Miss
  }

  /** The coordinates as a two-entry map. */
  function LocationValue(location: Location): (v: Value)
    ensures v.Map? && v.m.Keys == {"lon", "lat"}
    ensures v.m["lon"] == Num(location.longitude) && v.m["lat"] == Num(location.latitude)
  {
    Map(map["lon" := Num(location.longitude), "lat" := Num(location.latitude)])
  }

  /** The fresh map written on the city path. Names are read in the
      configured language (the empty string when that language is missing),
      and the region comes from the first subdivision, present only when
      there is one. */
  function CityGeoData(record: CityRecord, language: string): (m: map<string, Value>)
    ensures m.Keys == CityKeys(record)
    ensures "region_name" in m <==> |record.subdivisions| > 0
    ensures |record.subdivisions| > 0 ==>
      m["region_name"] == Str(NameIn(record.subdivisions[0], language))
    ensures m["timezone"] == Str(record.location.timeZone)
    ensures m["city_name"] == Str(NameIn(record.city, language))
    ensures m["country_name"] == Str(NameIn(record.country, language))
    ensures m["location"] == LocationValue(record.location)
  {
    var common := map[
      "timezone" := Str(record.location.timeZone),
      "city_name" := Str(NameIn(record.city, language)),
      "country_name" := Str(NameIn(record.country, language)),
      "location" := LocationValue(record.location)];
    if |record.subdivisions| > 0 then
      common["region_name" := Str(NameIn(record.subdivisions[0], language))]
    else
      common
  }

  /** The entries of the value already under the target, when it is a
      string-keyed map; nothing otherwise. */
  function PriorEntries(prior: Option<Value>): map<string, Value> {
    if prior.Some? && prior.value.Map? then prior.value.m else map[]
  }

  /** The map written on the ISP path: `isp` first, then every entry of a
      prior string-keyed map copied over it, so that prior entries win. */
  function IspGeoData(record: IspRecord, prior: Option<Value>): (m: map<string, Value>)
    ensures m.Keys == PriorEntries(prior).Keys + {"isp"}
    ensures forall k :: k in PriorEntries(prior) ==> m[k] == PriorEntries(prior)[k]
    ensures "isp" !in PriorEntries(prior) ==> m["isp"] == Str(record.isp)
    ensures !(prior.Some? && prior.value.Map?) ==> m == map["isp" := Str(record.isp)]
  {
    map["isp" := Str(record.isp)] + PriorEntries(prior)
  }

  /** The value currently stored under `key`, if any. */
  function Existing(fields: map<string, Value>, key: string): Option<Value> {
    if key in fields then Some(fields[key]) else None
  }

  /** A copy of Go's `for key, value := range from { into[key] = value }`:
      every entry of `from` ends up in the result, overriding `into`. Go's
      iteration order is unspecified; the result does not depend on it. */
  method CopyEntries(into: map<string, Value>, from: map<string, Value>) returns (r: map<string, Value>)
    ensures r.Keys == into.Keys + from.Keys
    ensures forall k :: k in from ==> r[k] == from[k]
    ensures forall k :: k in into && k !in from ==> r[k] == into[k]
    ensures r == into + from
  {
    r := into;
    var remaining := from.Keys;
    while remaining != {}
      invariant remaining <= from.Keys
      invariant r.Keys == into.Keys + (from.Keys - remaining)
      invariant forall k :: k in from && k !in remaining ==> r[k] == from[k]
      invariant forall k :: k in into && k !in from ==> r[k] == into[k]
      invariant forall k :: k in into && k in remaining ==> r[k] == into[k]
      decreases remaining
    {
      var key :| key in remaining;
      r := r[key := from[key]];
      remaining := remaining - {key};
    }
  }

  /** Construction: `src` and `dbPath` are required, `language` defaults to
      "en" and `target` to "geoip"; the database is opened from `dbPath`.
      `getValueRender2` builds the field accessor for a path and `open`
      opens a database; both are collaborators outside the model. */
  method New(config: Config, getValueRender2: string -> ValueRender, open: string -> Option<Reader>)
    returns (r: Result<GeoIP2Filter, NewError>)
    ensures r.Failure? <==> config.src.None? || config.dbPath.None? || open(config.dbPath.value).None?
    ensures config.src.None? ==> r == Failure(MissingSrc)
    ensures config.src.Some? && config.dbPath.None? ==> r == Failure(MissingDbPath)
    ensures config.src.Some? && config.dbPath.Some? && open(config.dbPath.value).None? ==>
      r == Failure(OpenFailed(config.dbPath.value))
    ensures r.Success? ==>
      && fresh(r.value)
      && r.value.config == config
      && r.value.src == config.src.value
      && r.value.srcVR == getValueRender2(config.src.value)
      && r.value.language == config.language.GetOr("en")
      && r.value.target == config.target.GetOr("geoip")
      && r.value.dbPath == config.dbPath.value
      && Some(r.value.db) == open(config.dbPath.value)
  {
    var target := "geoip";
    var src: string;
    var srcVR: ValueRender;
    if config.src.Some? {
      src := config.src.value;
      srcVR := getValueRender2(src);
    } else {
      return Failure(MissingSrc);
    }
    var language: string;
    if config.language.Some? {
      language := config.language.value;
    } else {
      language := "en";
    }
    if config.target.Some? {
      target := config.target.value;
    }
    var dbPath: string;
    if config.dbPath.Some? {
      dbPath := config.dbPath.value;
    } else {
      return Failure(MissingDbPath);
    }
    var db := open(dbPath);
    if db.None? {
      return Failure(OpenFailed(dbPath));
    }
    var plugin := new GeoIP2Filter(config, src, srcVR, target, language, dbPath, db.value);
    return Success(plugin);
  }

  /** The filter plugin. Its settings are fixed at construction; each call
      of `Filter` changes only the event it is given. */
  class GeoIP2Filter {
    const config: Config
    const src: string
    const srcVR: ValueRender
    const target: string
    const language: string
    const dbPath: string
    const db: Reader

    constructor (config: Config, src: string, srcVR: ValueRender, target: string,
                 language: string, dbPath: string, db: Reader)
      ensures this.config == config && this.src == src && this.srcVR == srcVR
      ensures this.target == target && this.language == language
      ensures this.dbPath == dbPath && this.db == db
    {
      this.config := config;
      this.src := src;
      this.srcVR := srcVR;
      this.target := target;
      this.language := language;
      this.dbPath := dbPath;
      this.db := db;
    }

    /** What one call of `Filter` does to an event's fields. A failure leaves
        the event as it was; a success changes the target field only, and
        always leaves a string-keyed map there. */
    function Enrich(fields: map<string, Value>, parseIP: string -> Option<IP>): (r: Outcome)
      ensures r.enriched <==> !Locate(srcVR(fields), parseIP, db).Miss?
      ensures !r.enriched ==> r.fields == fields
      ensures r.enriched ==> target in r.fields && r.fields[target].Map?
      ensures r.fields.Keys == fields.Keys + (if r.enriched then {target} else {})
      ensures forall k :: k in fields && k != target ==> r.fields[k] == fields[k]
    {
      match Locate(srcVR(fields), parseIP, db)
      case Miss => Outcome(fields, false)
      case CityHit(record) =>
        Outcome(fields[target := Map(CityGeoData(record, language))], true)
      case IspHit(ispRecord) =>
        Outcome(fields[target := Map(IspGeoData(ispRecord, Existing(fields, target)))], true)
    }

    /** Enriches `event` in place and hands back the same event, with whether
        an address was found in either tier. `parseIP` is the address
        parser of Go's standard library, outside the model. */
    method Filter(event: Event, parseIP: string -> Option<IP>) returns (out: Event, ok: bool)
      modifies event
      ensures out == event
      ensures Outcome(event.fields, ok) == Enrich(old(event.fields), parseIP)
    {
      var ipAddress := srcVR(event.fields);
      if ipAddress.Str? {
        var ipAddressStr := ipAddress.s;
        var ip := parseIP(ipAddressStr);
        if ip.None? {
          return event, false;
        }
        var record := db.city(ip.value);
        if record.None? {
          var ispRecord := db.isp(ip.value);
          if ispRecord.None? {
            return event, false;
          }
          var geoData: map<string, Value> := map[];
          geoData := geoData["isp" := Str(ispRecord.value.isp)];
          if target in event.fields {
            var existingGeoIP := event.fields[target];
            if existingGeoIP.Map? {
              geoData := CopyEntries(geoData, existingGeoIP.m);
            }
          }
          assert Locate(ipAddress, parseIP, db) == IspHit(ispRecord.value);
          assert geoData == IspGeoData(ispRecord.value, Existing(event.fields, target));
          event.fields := event.fields[target := Map(geoData)];
          return event, true;
        }
        var rec := record.value;
        var geoData: map<string, Value> := map[];
        geoData := geoData["timezone" := Str(rec.location.timeZone)];
        geoData := geoData["city_name" := Str(NameIn(rec.city, language))];
        if |rec.subdivisions| > 0 {
          geoData := geoData["region_name" := Str(NameIn(rec.subdivisions[0], language))];
        }
        geoData := geoData["country_name" := Str(NameIn(rec.country, language))];
        var lon, lat := rec.location.longitude, rec.location.latitude;
        geoData := geoData["location" := Map(map["lon" := Num(lon), "lat" := Num(lat)])];
        assert Locate(ipAddress, parseIP, db) == CityHit(rec);
        assert geoData == CityGeoData(rec, language);
        event.fields := event.fields[target := Map(geoData)];
        return event, true;
      } else {
        return event, false;
      }
    }
  }
}
