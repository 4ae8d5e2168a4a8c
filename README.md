# GeoIP2 enrichment filter, modelled in Dafny

This project models the GeoIP2 filter plugin for the gohangout event
pipeline (`geoip2_new.go`). The plugin is built once from a configuration
map (`New`). It is then called once per event (`GeoIP2Filter.Filter`). Each
call reads the source field through a field accessor and checks that the
value is a string that parses as an IP address. It asks the database's city
tier first and falls back to the ISP tier. It writes what it found under the
target field of the event, in place, and returns the same event with a
success flag.

Files:

- `wrappers.dfy`: `Option` and `Result`.
- `values.dfy`: the dynamic event value (`Value`). An event is a class holding a
  `map<string, Value>`, so that updates in place and "the same event is
  returned" can be stated. The field accessor type `ValueRender` is here too.
- `geodb.dfy`: the city and ISP records, and a `Reader` that is just the pair
  of lookup functions. `NameIn` reads a name table the way Go reads a map:
  a missing language gives `""`.
- `geoip2_new.dfy`: the configuration, `New`, the `GeoIP2Filter` class and
  its `Filter` method. It also holds the functions that specify them:
  `Locate` (validation and two-tier lookup), `CityGeoData`, `IspGeoData` and
  `Enrich` (the whole per-event effect). `Filter` is proved to update the
  event exactly as `Enrich` says.
- `geoip2_properties.dfy`: lemmas about `Enrich`. They cover the failure
  exits, overwrite versus merge, and idempotence.

Collaborators that are outside the model are taken as parameters:

- Go's `net.ParseIP` is the `parseIP` argument of `Filter`.
- `value_render.GetValueRender2` and `geoip2.Open` are the arguments of `New`.
- The database's `City` and `ISP` lookups are the two functions of a `Reader`.

Merge precedence on the ISP path follows the code. `geoData["isp"]` is set
first, and the prior map's entries are copied over it afterwards. So a prior
entry wins on every shared key, `isp` included (`PriorIspEntryWins`).

## Model

| member | source | states |
|---|---|---|
| `GeoIP2.New` | geoip2_new.go:22-52 | Construction fails exactly when `src` is missing, `dbPath` is missing or the database cannot be opened, with that error and in that order of checks. On success the plugin is new, `language` defaults to "en", `target` to "geoip", and the accessor and database come from `src` and `dbPath`. |
| `GeoIP2.GeoIP2Filter.constructor` | geoip2_new.go:11-19 | The plugin's fields hold the given configuration, source path, accessor, target, language, database path and database. |
| `GeoIP2.GeoIP2Filter.Filter` | geoip2_new.go:54-105 | Returns the very event it was given. The event's new contents and the flag are exactly `Enrich` of its old contents. |
| `GeoIP2.GeoIP2Filter.Enrich` | geoip2_new.go:54-105 | Success exactly when the lookup does not miss. A failure returns the fields unchanged. A success leaves a string-keyed map under the target. Keys other than the target keep their values, and no other key is added. |
| `GeoIP2.Locate` | geoip2_new.go:55-69 | A non-string or unparsable source value misses. A city hit is used whenever the city tier answers. The ISP tier is used only when the city tier misses, and a miss in both is a miss. |
| `GeoIP2.CityGeoData` | geoip2_new.go:82-97 | Keys are exactly `timezone`, `city_name`, `country_name`, `location`, plus `region_name` if and only if there is a subdivision. Names are read in the configured language (`""` when absent). The region comes from the first subdivision. Its helper `GeoDb.NameIn` reads a name table as a Go map index does, giving the zero value `""` for a missing language (geoip2_new.go:84-88). |
| `GeoIP2.LocationValue` | geoip2_new.go:89-97 | `location` is a map with exactly the keys `lon` and `lat`, holding the record's longitude and latitude. |
| `GeoIP2.IspGeoData` | geoip2_new.go:70-78 | Keys are the prior map's keys plus `isp`. Every prior entry keeps its value. `isp` holds the looked-up ISP only when the prior map had no `isp`. With no prior map, the result is exactly `{isp: ISP}`. Its helpers are `GeoIP2.Existing`, the comma-ok read of `event[plugin.target]` (geoip2_new.go:72), and `GeoIP2.PriorEntries`, the `map[string]interface{}` type assertion, which yields no entries for any other value (geoip2_new.go:73). |
| `GeoIP2.CopyEntries` | geoip2_new.go:74-76 | After the copy loop, the result has the keys of both maps. Copied entries override the existing ones, and other existing entries stay. The result equals the union with the source map winning. |
| `GeoIP2Properties.InvalidSourceLeavesEventUnchanged` | geoip2_new.go:56-60 | A non-string or unparsable source value leaves the event unchanged and reports failure. |
| `GeoIP2Properties.BothTiersMissLeavesEventUnchanged` | geoip2_new.go:62-69 | When both tiers miss, the event is unchanged and failure is reported. No partial result is written. |
| `GeoIP2Properties.CityHitOverwritesTarget` | geoip2_new.go:82-100 | A city hit replaces any prior value under the target with the fresh city map. That map's key set is exactly the city keys, and success is reported. |
| `GeoIP2Properties.IspFallbackMergesPriorMap` | geoip2_new.go:70-80 | On the ISP path over a prior string-keyed map, all prior entries survive, `isp` is added, and a prior `isp` wins. |
| `GeoIP2Properties.IspFallbackWithoutPriorMap` | geoip2_new.go:70-80 | On the ISP path with no prior value or a non-map prior value, the target becomes exactly `{isp: ISP}` and success is reported. |
| `GeoIP2Properties.PriorIspEntryWins` | geoip2_new.go:70-80 | On the ISP path over any prior string-keyed map that holds `isp`, the enriched target keeps the prior `isp` value in place of the one just looked up, and success is reported. |
| `GeoIP2Properties.EnrichIdempotent` | geoip2_new.go:54-105 | Filtering a second time changes nothing more, if the source field reads the same after the first call. |

## Left out

- Address parsing (`net.ParseIP`) is an uninterpreted partial function given to `Filter`. IPv4/IPv6 text syntax is not modelled.
- The database library (`geoip2.Open`, `City`, `ISP`) is a set of given functions. The file format, and whether the library reports an unknown address as an error or as an empty record, are not part of this model. A lookup error is a `None`.
- The field accessor (`value_render.GetValueRender2`, `Render`) is an abstract function from the event's fields to a value. Path syntax and nested traversal are not modelled.
- Coordinates are 64-bit floats, carried as their bit pattern. No floating-point arithmetic happens.
- Logging (`glog.V(10).Infof`) is dropped. `glog.Fatal`/`Fatalf` process termination becomes a `Failure` result of `New`.
- Type assertions on configuration values (`src.(string)` and the like) panic in Go when a value is not a string. The model's configuration has typed optional strings, so these panics are not modelled.
- A nil event map, which would make Go panic on the write, is not modelled. An event is always a map.
- Go has map values of other types (such as `map[interface{}]interface{}`). They are `Other` values, so on the ISP path they are replaced, as in the code, not merged.
- There is no concurrency in the code. The shared database handle is only read.
