/** The circuit catalog of the circuit-retrieval tool: the 2025 circuit
    identifiers and the alias table. Image lookup and name normalisation are
    stubs in the source and are not modelled. */
module Circuits {

  import opened Text

  /** Available circuit locations for the 2025 season, in catalog order. */
  const CircuitLocations: seq<string> := [
    "Abu_Dhabi", "Australia", "Austria", "Bahrain", "Baku", "Belgium",
    "Brazil", "Canada", "China", "Emilia_Romagna", "Great_Britain",
    "Hungary", "Italy", "Japan", "Las_Vegas", "Mexico", "Miami",
    "Monaco", "Netherlands", "Qatar", "Saudi_Arabia", "Singapore",
    "Spain", "USA"
  ]

  /** Common nicknames, keyed by their lower-case spelling. */
  const LocationAliases: map<string, string> := map[
    "vegas" := "Las_Vegas",
    "las vegas" := "Las_Vegas",
    "british gp" := "Great_Britain",
    "britain" := "Great_Britain",
    "uk" := "Great_Britain",
    "cota" := "USA",
    "austin" := "USA",
    "imola" := "Emilia_Romagna"
  ]

  /** No identifier is listed twice. */
  predicate Distinct(xs: seq<string>)
  {
    forall i, j | 0 <= i < j < |xs| :: xs[i] != xs[j]
  }

  /** `list_available_circuits`: the catalog itself, 24 distinct identifiers,
      covering every alias target. */
  function ListAvailableCircuits(): (r: seq<string>)
    ensures |r| == 24
    ensures Distinct(r)
    ensures forall a | a in LocationAliases :: LocationAliases[a] in r
  {
    CircuitLocations
  }

  /** Every alias key is already lower case, as the case-insensitive lookup
      the tool documents requires. */
  lemma AliasKeysLowerCase()
    ensures forall a | a in LocationAliases :: Lower(a) == a
  {
  }

  /** How the orchestrator spells a catalog entry when it looks for it in a
      query: lower case, with `_` read as a space. */
  function DisplayName(id: string): (r: string)
    ensures |r| == |id|
    ensures forall k :: 0 <= k < |id| ==> r[k] == (if id[k] == '_' then ' ' else LowerChar(id[k]))
    ensures '_' !in r
  {
    Lower(ReplaceChar(id, '_', ' '))
  }
}
