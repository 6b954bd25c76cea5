# PokeLookup core in Dafny

This project models the core of PokeLookup, a third-generation Pokédex lookup
tool, and proves properties of that model. The core has three parts:

- **The type universe** (`poke_types.dfy`, module `PokeTypes`). The 17
  `PokeType` members with their ordinals and enumeration names. `TYPE_CHART`,
  the fixed 17×17 table of attack-versus-defence multipliers, held as exact
  `real` values (0, 0.5, 1, 2). The enumeration lookup `PokeType[name.upper()]`,
  which either finds a member or raises `KeyError`.
- **The lookup core** (`core.dfy`, module `PokeLookupCore`):
  - the resolved `Pokemon` value;
  - `get_type_effectiveness`, the product of one or two chart entries;
  - `Pokemon.__str__`, the text card;
  - `PokeLookup.find_pokemon`, a scan over the roster that resolves the first
    record whose name equals the lower-cased query.
- **The older exporter** (`legacy.dfy`, module `PokeLookupLegacy`). Its
  `Pokemon(d)` pulls fields out of a roster record, and its `__str__` writes
  a card.

Shared pieces:

- `records.dfy` (module `PokeApi`) is the shape of a roster record. It keeps
  the identifier, name, species name, type names in list order, and
  `past_types`.
- `text.dfy` (module `Text`) models Python's `lower`, `upper`, `title` and
  `str(int)`, plus line splitting. Line splitting is used to state what a card
  looks like line by line.
- `outcomes.dfy` (module `Outcomes`) holds `Option` for `None`, and `Result`
  for a value or the exception raised instead (`KeyError`, `IndexError`).

Both `Pokemon` classes set their fields only in their constructors and never
change them afterwards, so both are datatypes here. The core's `Pokemon.__init__` is the
constructor of `PokeLookupCore.Pokemon`. The exporter's `Pokemon(d)` is
`PokeLookupLegacy.FromRecord`. It returns a `Result` because `d['types'][0]`
raises `IndexError` on a record with no types.

`find_pokemon` takes the roster as a parameter instead of the object's
`pokedex` field. It is a method with a loop and an early return. Its
specification is the function `Lookup`. The three outcomes of the source are:

- `Ok(Some(p))`: a `Pokemon` was returned;
- `Ok(None)`: `None` was returned;
- `Raised(e)`: an exception escaped.

The identifier clause `p['id'] == id` in `pokelookup_core.py:163` compares the
record's number with Python's built-in function `id`. That comparison is never
true, so the model leaves identifiers out of matching.
`PokeLookupCore.NumericQueryIgnoresId` states the consequence: a query such as
`"1"` does not find the record whose identifier is 1. The docstring of
`find_pokemon` lists an `id` parameter (`pokelookup_core.py:154`), and TODO
comments plan fuzzy matching and a generation-3 `past_types` override
(`pokelookup_core.py:162,168`). The code does none of these, so the model
follows the code.

## Model

| member | source | states |
|---|---|---|
| `PokeTypes.ChartWellFormed` | pokelookup_core.py:32-70 | the chart has 17 rows of 17 entries and every entry is 0, 0.5, 1 or 2 |
| `PokeTypes.AllTypesByOrdinal` | pokelookup_core.py:11-28 | the 17 members occupy the ordinals 0..16, one each, in declaration order |
| `PokeTypes.Multiplier` | pokelookup_core.py:92 | a lookup `TYPE_CHART[attack.value][defend.value]` always yields one of the four chart values |
| `PokeTypes.ChartReferenceValues` | pokelookup_core.py:190-195 | Ghost→Normal 0, Normal→Ghost 0, Fighting→Normal 2, Dark→Ghost 2, Dark→Dark 0.5, Ice→Steel 0.5 |
| `PokeTypes.ChartMatchesLists` | pokelookup_core.py:37-69 | on all 289 pairs the table agrees with per-attacker lists of immunities, resistances and weaknesses (everything else neutral) |
| `PokeTypes.MultiplierClassified` | pokelookup_core.py:37-69 | a multiplier is 0, 0.5 or 2 exactly when the defender is in the attacker's immunity, resistance or weakness list, and 1 exactly when it is in none |
| `PokeTypes.MembersByNameExact` | pokelookup_core.py:11-28 | the name table holds each member under its own name and nothing else |
| `PokeTypes.TypeFromName` | pokelookup_core.py:170 | succeeds exactly when the upper-cased name is a member name, returns that member, and otherwise raises `KeyError` with the upper-cased name, never a default |
| `PokeTypes.NameInjective` | pokelookup_core.py:11-28 | two different members never share a name |
| `PokeTypes.TypeFromLowerName` | pokelookup_core.py:169-170 | the lower-case type names of the roster data (`"grass"`) resolve to their members |
| `PokeTypes.FairyIsUnknown` | pokelookup_core.py:170 | a type the chart does not know, `"fairy"`, raises `KeyError('FAIRY')` |
| `PokeLookupCore.Effectiveness` | pokelookup_core.py:81-97 | the effectiveness is always one of 0, 0.25, 0.5, 1, 2, 4, so between 0 and 4 |
| `PokeLookupCore.EffectivenessByTypes` | pokelookup_core.py:92-97 | for a single-type Pokémon it is exactly the chart entry of the first type; for a dual-type one, the product of both entries |
| `PokeLookupCore.EffectivenessIgnoresTypeOrder` | pokelookup_core.py:92-97 | swapping the two types leaves the effectiveness unchanged |
| `PokeLookupCore.EffectivenessZeroIffImmune` | pokelookup_core.py:92-97 | the effectiveness is 0 exactly when one of the Pokémon's types is immune to the attack |
| `PokeLookupCore.EffectivenessQuadrupleIffDoubleWeak` | pokelookup_core.py:92-97 | the effectiveness is 4 exactly when the Pokémon has two types and both are weak to the attack |
| `PokeLookupCore.Render` | pokelookup_core.py:100-112 | the string built step by step is the card: `No. {id}`, the title-cased name, the type line, 30 dashes, each line ended by a line break |
| `PokeLookupCore.TypeLabelFacts` | pokelookup_core.py:107-109 | a title-cased type name upper-cases back to the member name and holds neither `\|` nor a line break |
| `PokeLookupCore.TypeLineBarIffSecondType` | pokelookup_core.py:107-109 | the type line contains `\|` exactly when the Pokémon has a second type, and never a line break |
| `PokeLookupCore.CardLines` | pokelookup_core.py:100-112 | for a name without line breaks, the card splits into exactly the lines `No. {id}`, title-cased name, type line, 30 dashes and an empty remainder |
| `PokeLookupCore.TypeLabelInjective` | pokelookup_core.py:107-109 | two different types never get the same title-cased label |
| `PokeLookupCore.TypeLineInjective` | pokelookup_core.py:107-109 | equal type lines mean equal first and second types |
| `PokeLookupCore.CardDeterminesPokemon` | pokelookup_core.py:100-112 | two Pokémon with the same card have the same identifier, the same types and names equal up to case |
| `PokeLookupCore.ResolveRecord` | pokelookup_core.py:165-176 | no types raises `IndexError`, an unknown first or second type name raises `KeyError`; on success the identifier and name are copied verbatim, type1 is named by `types[0]`, and type2 is present exactly when there is more than one type and is then named by `types[1]` |
| `PokeLookupCore.ResolveRecordSucceeds` | pokelookup_core.py:165-176 | a record with at least one type whose first two type names are members always resolves |
| `PokeLookupCore.FirstMatch` | pokelookup_core.py:161-163 | gives the position of the first record with the given name, with no earlier record of that name, or nothing exactly when no record has it |
| `PokeLookupCore.Lookup` | pokelookup_core.py:161-178 | the function form of the search: `None` exactly when no record's name equals the lower-cased query; a found Pokémon carries that lower-cased name; an escaped exception is `IndexError` or `KeyError` |
| `PokeLookupCore.FindPokemon` | pokelookup_core.py:147-178 | the loop returns what `Lookup` specifies: the resolved first record named `name.lower()` (or its exception), and `None` exactly when no record has that name |
| `PokeLookupCore.LookupNoneIffNoName` | pokelookup_core.py:161-178 | `None` exactly when no record's name equals the lower-cased query, in particular for an empty roster |
| `PokeLookupCore.LookupTakesFirst` | pokelookup_core.py:161-177 | the answer is the resolution of the first matching record in roster order |
| `PokeLookupCore.LookupIgnoresLaterRecords` | pokelookup_core.py:161-177 | appending records after a matching one never changes the answer |
| `PokeLookupCore.LookupIgnoresQueryCase` | pokelookup_core.py:163 | looking up a query and looking up its lower-cased form give the same answer |
| `PokeLookupCore.LookupFoundFields` | pokelookup_core.py:165-176 | a found Pokémon has the matching record's identifier and name, its first type named by that record's `types[0]`, and a second type exactly when the record has more than one |
| `PokeLookupCore.NumericQueryIgnoresId` | pokelookup_core.py:163 | in any roster, whatever its identifiers, a query spelling a number finds nothing unless some record's name is that same text |
| `PokeLookupLegacy.FromRecord` | pokelookup.py:24-35 | raises `IndexError` exactly when the record has no types; otherwise id, name, species name and `past_types` are copied verbatim, type1 is the first type name, and type2 is present exactly when there is more than one type and is then the second name |
| `PokeLookupLegacy.LegacyRender` | pokelookup.py:37-49 | the string built step by step is the exporter's card |
| `PokeLookupLegacy.LegacyCardFrame` | pokelookup.py:42-48 | the card starts with `No. {id}\n{Name} - {Species}\n`, ends with a line break, 30 dashes and a line break, and in between holds exactly the type line |
| `PokeLookupLegacy.LegacyTypeLineBarIffSecond` | pokelookup.py:44-46 | ` \| {type2}` follows the title-cased type1 exactly when type2 is truthy (present and not empty); otherwise type1 stands alone |
| `PokeLookupLegacy.LegacyCardLines` | pokelookup.py:37-49 | for fields without line breaks the card splits into exactly the number line, the name line, the type line, 30 dashes and an empty remainder |
| `PokeLookupLegacy.RecordCardTypes` | pokelookup.py:29-46 | the card of a record shows its second type name exactly when the record has more than one type and that name is not empty |
| `Text.Title` | pokelookup_core.py:106 | `title()` upper-cases each letter that starts a word, lower-cases the other letters and keeps every other character |
| `Text.TitleIdempotent` | pokelookup_core.py:106 | a general fact about `title()` as modelled: title-casing twice is the same as once |
| `Text.Lower` | pokelookup_core.py:163 | `lower()` keeps the length and lower-cases each upper-case letter |
| `Text.Upper` | pokelookup_core.py:170 | `upper()` keeps the length and upper-cases each lower-case letter |
| `Text.IntToDecimal` | pokelookup_core.py:105 | `str(n)` is non-empty, starts with a minus sign exactly when `n` is negative, has only digits after it, and has no leading zero unless it is `"0"` |
| `Text.DecimalRoundTrip` | pokelookup_core.py:105 | `str(id)` is a minus sign and digits, and reads back to the identifier |
| `Text.SeparatorIsDashes` | pokelookup_core.py:111 | the closing rule is exactly 30 dashes |

## Left out

- Downloading the roster over HTTP, the progress bar, and writing or reading
  `pokemon.json` and `pokemon.txt` are left out (`pokelookup_core.py:118-143`,
  `pokelookup.py:52-62`). These are network and file I/O. The roster is a
  parameter instead.
- The interactive loop in `main` (`pokelookup_core.py:198-223`) is left out,
  and so are the `print` calls in `get_type_effectiveness`. Both are console I/O; only the returned value is
  modelled.
- `pokelookup_app.py` is not part of this model. It is a graphical front end
  with no lookup logic.
- Floating point is not modelled: the multipliers are exact rationals, and
  `0.5 * 0.5` is exactly `0.25`. The source's mix of `int` and `float` results
  (`1 * 2` is the integer 2) does not change any value.
- The `UNKNOWN = 10001` sentinel is left out. It is not a real type and would
  index outside the chart. A missing second type is `None` instead.
- PokeTypes.TypeFromName: the name `"unknown"` raises `KeyError('UNKNOWN')`
  here. In the source, `PokeType['UNKNOWN']` finds the sentinel. A record of
  that type would then print as `Unknown` and fail with `IndexError` in
  `get_type_effectiveness`.
- Fuzzy matching and the generation-3 `past_types` override are left out.
  They are only TODO comments in the source. The exporter's `past_types` is
  copied and never read.
- Matching by identifier is left out. The source's clause compares with the
  built-in `id` and is never true (see `NumericQueryIgnoresId`).
- What `main` does with the effectiveness is left out: it calls
  `get_type_effectiveness` once per attacking type and discards each result
  (`pokelookup_core.py:207-223`).
- Text.Lower: only ASCII `A`-`Z` are lower-cased, so the length never changes.
  Python's `str.lower` also maps other Unicode letters, some to two code points
  (`İ` to `i` and a combining dot).
- Text.Upper: only ASCII `a`-`z` are upper-cased. Python's `str.upper` also
  maps other letters, some to two characters (`ß` to `SS`).
- Text.Title: only ASCII letters are cased letters, so the length never
  changes. Python's `str.title` uses every Unicode cased letter and can change
  the length (`ß` at the start of a word becomes `Ss`).
- Malformed record shapes are left out: a missing key, or a `types` entry
  without `type.name`. The record datatype always has its fields. Only the
  empty `types` list (`IndexError`) and unknown type names (`KeyError`) are
  modelled as failures.
