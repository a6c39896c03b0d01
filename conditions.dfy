/** The condition classifier: the fixed table from weather code to label and
    glyph, and the three different ways the widget looks a code up in it. */
module Conditions {
  import opened Values

  /** The react-icons glyphs, as opaque tags. */
  datatype Glyph =
    | DaySunny | DayCloudy | Cloud | Fog | Sprinkle | Rain | Snow | Thunderstorm | StrongWind

  datatype Condition = Condition(name: string, icon: Glyph)  // `name` is the entry's label

  /** The ten-entry `weatherConditions` table. */
  const Catalog: map<int, Condition> := map[
    0 := Condition("Clear Sky", DaySunny),
    1 := Condition("Mainly Clear", DayCloudy),
    2 := Condition("Partly Cloudy", Cloud),
    3 := Condition("Overcast", Cloud),
    45 := Condition("Foggy", Fog),
    51 := Condition("Drizzle", Sprinkle),
    61 := Condition("Rainy", Rain),
    71 := Condition("Snowy", Snow),
    80 := Condition("Showers", Rain),
    95 := Condition("Thunderstorm", Thunderstorm)
  ]

  /** The fallback of the current-conditions panel. */
  const UnknownCondition: Condition := Condition("Unknown", StrongWind)

  /** The codes the table knows. */
  const KnownCodes: set<int> := {0, 1, 2, 3, 45, 51, 61, 71, 80, 95}

  /** `weatherConditions[code]`: the entry, or `undefined` for an unknown or
      missing code. */
  function Lookup(code: Option<int>): Option<Condition>
  {
    match code
    case None => None
    case Some(c) => if c in Catalog then Some(Catalog[c]) else None
  }

  /** Current conditions: `weatherConditions[code] || { label: "Unknown", ... }`.
      Total: a known code gets its entry, every other integer gets "Unknown". */
  function CurrentCondition(code: int): (c: Condition)
    ensures code in KnownCodes ==> c == Catalog[code]
    ensures c.name == "Unknown" <==> code !in KnownCodes
    ensures code !in KnownCodes ==> c == UnknownCondition
  {
    match Lookup(Some(code))
    case Some(entry) => entry
    case None => UnknownCondition
  }

  /** Hour cards: `weatherConditions[code] || weatherConditions[0]`.
      Always an entry of the table, never "Unknown"; an unknown or missing
      code shows as "Clear Sky". */
  function CardCondition(code: Option<int>): (c: Condition)
    ensures c in Catalog.Values && c.name != "Unknown"
    ensures code.Some? && code.value in KnownCodes ==> c == Catalog[code.value]
    ensures (code.None? || code.value !in KnownCodes) ==> c.name == "Clear Sky"
    ensures c.name == "Clear Sky" <==> code.None? || code.value !in KnownCodes || code.value == 0
  {
    match Lookup(code)
    case Some(entry) => entry
    case None => Catalog[0]
  }

  /** The selected-hour panel: `weatherConditions[code]?.label`, with no
      fallback. Defined exactly for the known codes, where it agrees with the
      other two lookups. */
  function DetailLabel(code: Option<int>): (l: Option<string>)
    ensures l.Some? <==> code.Some? && code.value in KnownCodes
    ensures l.Some? ==> l.value == CurrentCondition(code.value).name == CardCondition(code).name
  {
    match Lookup(code)
    case Some(entry) => Some(entry.name)
    case None => None
  }

  /** For a code outside the table the three lookups show three different
      things: "Unknown", "Clear Sky" and nothing. */
  lemma UnknownCodeDisagreement(code: int)
    requires code !in KnownCodes
    ensures CurrentCondition(code).name == "Unknown"
    ensures CardCondition(Some(code)).name == "Clear Sky"
    ensures DetailLabel(Some(code)) == None
  {
  }
}
