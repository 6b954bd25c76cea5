/** The raw roster records as the data service delivers them, reduced to the
    fields the lookup core reads. */
module PokeApi {

  /** One `past_types` entry: the generation it applies to and the type names
      the species had then. */
  datatype PastTypes = PastTypes(generation: string, types: seq<string>)

  /** One roster record: `id`, `name`, `species.name`, the type names of
      `types[k].type.name` in list order, and `past_types`. */
  datatype RawRecord = RawRecord(
    id: int,
    name: string,
    speciesName: string,
    types: seq<string>,
    pastTypes: seq<PastTypes>)
}
