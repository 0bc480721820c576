/**
 * The map-type table: the four layer names the component accepts and the
 * map-type codes of the maps SDK they stand for.
 */
module MapTypes {
  import opened Wrappers

  // Map-type codes defined by the maps SDK.
  const MapTypeNormal: int := 1
  const MapTypeSatellite: int := 2
  const MapTypeTerrain: int := 3
  const MapTypeHybrid: int := 4

  /** The layer names SetMapType accepts. */
  const LayerNames: set<string> := {"normal", "hybrid", "satellite", "terrain"}

  predicate IsMapTypeCode(code: int) {
    code == MapTypeNormal || code == MapTypeHybrid || code == MapTypeSatellite || code == MapTypeTerrain
  }

  /** The code SetMapType stores for a layer name, or None for a name it rejects. */
  function LayerCode(name: string): (code: Option<int>)
    ensures code.Some? <==> name in LayerNames
    ensures code.Some? ==> IsMapTypeCode(code.value)
  {
    if name == "normal" then Some(MapTypeNormal)
    else if name == "hybrid" then Some(MapTypeHybrid)
    else if name == "satellite" then Some(MapTypeSatellite)
    else if name == "terrain" then Some(MapTypeTerrain)
    else None
  }

  /** The name MapType reports for a code, or None (Java null) for a code outside the table. */
  function LayerName(code: int): (name: Option<string>)
    ensures name.Some? <==> IsMapTypeCode(code)
    ensures name.Some? ==> name.value in LayerNames
  {
    if code == MapTypeNormal then Some("normal")
    else if code == MapTypeHybrid then Some("hybrid")
    else if code == MapTypeSatellite then Some("satellite")
    else if code == MapTypeTerrain then Some("terrain")
    else None
  }

  /** Setting a layer by name and reading the map type back yields that name. */
  lemma LayerNameOfCode(name: string)
    requires name in LayerNames
    ensures LayerCode(name).Some? && LayerName(LayerCode(name).value) == Some(name)
  {
  }

  /** Every code in the table is reached by exactly the name MapType reports for it. */
  lemma LayerCodeOfName(code: int)
    requires IsMapTypeCode(code)
    ensures LayerName(code).Some? && LayerCode(LayerName(code).value) == Some(code)
  {
  }

  /** Distinct layer names select distinct codes. */
  lemma LayerCodeInjective(a: string, b: string)
    requires a in LayerNames && b in LayerNames
    requires LayerCode(a) == LayerCode(b)
    ensures a == b
  {
    LayerNameOfCode(a);
    LayerNameOfCode(b);
  }
}
