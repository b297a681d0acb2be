# pokedex-api: a verified model of the projection core

pokedex-api is an HTTP service that sits in front of PokéAPI. It serves
a Pokémon list and a Pokémon detail page, localised to the language of
the `accept-language` header. Most of the service fetches records. This
model covers the deterministic logic applied to those records:

- **Damage relations** (`utils/pokedex.ts`). The types' damage-relation
  lists are folded into two multiplier dictionaries, one for damage taken
  and one for damage dealt. These are filtered into strengths,
  sensitivities and immunities. This file also holds the decimetre and
  decigram conversions.
- **Projection** (`app/Controllers/Http/PokemonsController.ts`):
  - localised-name lookup;
  - the list-view item;
  - sprite URL, `#NNN` dex number, evolution-chain id, hatch count and
    flavour text;
  - the variety ("special form") filter and the French display-name
    rewriting;
  - the recursive evolution-chain walk and its flattening.
- **Client options** (`utils/pokeapi/interfaces/PokeAPIOptions.ts`). The
  constructor sets defaults, then overrides them from a config object.

Fetched records are immutable input values. A fetch by name is a total
function passed in as a parameter. The language header is a string
parameter.

The only failure the core raises itself is reading `.name` of the
missing first element of a language-filtered list. It is modelled as
`Failure(LocalisationMissing)`. `Promise.all` over a mapped array fails
as soon as one element fails and keeps input order. It is modelled by
`Outcomes.MapAll`.

Modules:

- `Outcomes` (outcomes.dfy): Option, Result and the fail-fast traversal.
- `JsText` (jstext.dfy): the JavaScript string built-ins the core uses.
- `Localisation` (localisation.dfy): first entry in a language.
- `Pokedex` (pokedex.dfy): unit conversions and the damage aggregator.
  - Reference functions: `Accumulated` and a per-key `Fold` of factors.
  - Imperative methods that mirror the `forEach`/`reduce` loops.
- `PokeApiOptions` (options.dfy): the options class, plus a reference
  function `Merged` for its final state.
- `Formatting` (formatting.dfy): the small formatters and the list view.
- `Varieties` (varieties.dfy): the special forms and their display names.
- `Evolution` (evolution.dfy): the chain walk. Its reference definition
  `Steps` is the pre-order list of parent/child steps.

Where the code and what a reader would expect of it disagree, the model
follows the code:

- **Zero multipliers.** A reader would expect an immunity never to be
  cancelled: once a name's multiplier is 0 it should stay 0. In the code
  a stored 0 is falsy, so a later half or double entry replaces it, and
  the outcome depends on the order of the types.
  `Pokedex.ZeroDoesNotDominate` proves this order dependence. Real type
  pairs hit it. For example, with Flying then Steel, Flying gives Ground 0
  and Steel's double damage from Ground then makes it 2. Ground then
  Flying does the same to Electric, and Steel then Fairy to Poison.
- **Missing language header.** The chain walk is meant to default to
  French when the header is absent (`language ?? 'fr'`, line 161 of the
  controller). The earlier species-name lookup at lines 99-100 already
  fails when the header is absent, so that default is never reached.
- **Sensitivities filter.** The guard `sensitivities !== 0` compares the
  whole dictionary with 0 and is always true. Sensitivities therefore
  include the immunities.

## Model

| member | source | states |
|---|---|---|
| Outcomes.MapAll | app/Controllers/Http/PokemonsController.ts:258-259 | `Promise.all(xs.map(f))` succeeds iff every element succeeds; the results have the input's length and order, each being its element's result |
| Outcomes.MapAllAppend | app/Controllers/Http/PokemonsController.ts:258-259 | resolving a concatenation is resolving both parts and joining them, failing if either fails |
| Localisation.FirstFor | app/Controllers/Http/PokemonsController.ts:121-122 | absent iff no entry has the language; otherwise the text of an entry in that language with no earlier entry in that language |
| Localisation.Required | app/Controllers/Http/PokemonsController.ts:99-100 | the localised name succeeds iff some entry has the language, and is then the first such entry's text; failure rather than a default otherwise |
| Localisation.FirstForPicksEarliest | app/Controllers/Http/PokemonsController.ts:99-100 | an entry in the language at index i means the lookup succeeds with the first such entry at or before i |
| Localisation.LocaliseAll | app/Controllers/Http/PokemonsController.ts:135-140 | a list of name lists resolves iff every list has the language; result i is the first match of list i |
| Localisation.LocaliseAllLower | app/Controllers/Http/PokemonsController.ts:105-107 | as above, each name lower-cased |
| JsText.IndexOf | app/Controllers/Http/PokemonsController.ts:170 | `indexOf` is -1 iff the text does not contain the pattern, otherwise the first position where it occurs |
| JsText.Split | app/Controllers/Http/PokemonsController.ts:185 | `split` gives at least one part, no part contains the separator, and joining the parts with it gives back the text |
| JsText.SplitAppend | app/Controllers/Http/PokemonsController.ts:157 | splitting `a + sep + b` is splitting `a` followed by splitting `b` |
| JsText.Decimal | app/Controllers/Http/PokemonsController.ts:75 | `toString` of a natural: non-empty, all digits, no leading zero unless it is "0", and its digits read back as the number |
| JsText.PadStart | app/Controllers/Http/PokemonsController.ts:75 | `padStart` reaches at least the target length, ends with the original text and is filled with the pad character before it |
| JsText.NumberValue | app/Controllers/Http/PokemonsController.ts:157 | unary `+` on a string gives a number iff the string is all digits; zeros followed by the `toString` of n give n, `''` gives 0, and a digit string without a leading zero is exactly the `toString` of the number it gives |
| JsText.NumberValueExamples | app/Controllers/Http/PokemonsController.ts:157 | `+'07'` is 7 and `+''` is 0 |
| JsText.NumberValueOfDecimal | app/Controllers/Http/PokemonsController.ts:157 | unary `+` reads a natural's decimal form back as that natural |
| JsText.LowerAscii | app/Controllers/Http/PokemonsController.ts:57 | `toLowerCase` keeps the length, maps each character to its lower case and leaves no upper-case letter |
| JsText.ReplaceNewlines | app/Controllers/Http/PokemonsController.ts:123 | `replace(/\n/g, ' ')` keeps the length, turns each line feed into a space, keeps every other character and leaves no line feed |
| Pokedex.DmToM | utils/pokedex.ts:3-5 | the metres are a tenth of the decimetres, exactly |
| Pokedex.DgToKg | utils/pokedex.ts:6-8 | the kilograms are a tenth of the decigrams, exactly |
| Pokedex.ConversionExamples | utils/pokedex.ts:3-8 | 12 dm is 1.2 m and 100 dg is 10 kg |
| Pokedex.ApplyEach | utils/pokedex.ts:12-14 | one `forEach` over a list sets each named key to the factor when it is absent or 0, otherwise multiplies it by the factor |
| Pokedex.AccumulateMultipliers | utils/pokedex.ts:11-35 | the `reduce` over the types produces the reference dictionary `Accumulated` for that direction |
| Pokedex.AccumulatedAt | utils/pokedex.ts:11-22 | each key's value is the fold of exactly the factors naming it, types in order and, within a type, half then double then no damage |
| Pokedex.AccumulatedKeys | utils/pokedex.ts:11-35 | a name is a key of a direction's dictionary iff some type lists it in that direction's lists, so incoming keys come only from `*_from` lists and outgoing keys only from `*_to` lists |
| Pokedex.ZeroDoesNotDominate | utils/pokedex.ts:13-19 | no damage from X then double damage from X gives 2; the other order gives 0 |
| Pokedex.KeepWhere | utils/pokedex.ts:37-55 | the filtered dictionary holds exactly the keys whose value passes the test, with their values |
| Pokedex.GetDamagesInfos | utils/pokedex.ts:10-64 | strengths are exactly the dealt multipliers equal to 2; sensitivities are exactly the taken multipliers other than 1, zeros included; immunities are exactly the taken multipliers equal to 0 and are a sub-dictionary of the sensitivities; no types give three empty dictionaries |
| PokeApiOptions.Options.constructor | utils/pokeapi/interfaces/PokeAPIOptions.ts:44-75 | every field ends as the reference `Merged(config, cache)`: the default unless the config field is truthy |
| PokeApiOptions.EmptyConfigGivesDefaults | utils/pokeapi/interfaces/PokeAPIOptions.ts:45-52 | an empty config gives https, `://pokeapi.co`, `/api/v2/`, offset 0, limit 100000, timeout 10000 and cache limit 1000000000 |
| PokeApiOptions.HostNamePrefixed | utils/pokeapi/interfaces/PokeAPIOptions.ts:57-59 | a truthy host name is stored behind `://` |
| PokeApiOptions.OffsetStoredMinusOne | utils/pokeapi/interfaces/PokeAPIOptions.ts:63-65 | a truthy offset is stored one lower |
| PokeApiOptions.FalsyOverridesKeepDefaults | utils/pokeapi/interfaces/PokeAPIOptions.ts:54-74 | zero, empty and absent overrides leave the defaults |
| PokeApiOptions.TruthyOverridesCopied | utils/pokeapi/interfaces/PokeAPIOptions.ts:54-74 | truthy protocol, version path, limit, timeout and cache limit are copied as given; the cache is the constructor's argument |
| PokeApiOptions.FieldsIndependent | utils/pokeapi/interfaces/PokeAPIOptions.ts:54-74 | each stored field depends only on its own config field |
| Formatting.SpriteUrl | app/Controllers/Http/PokemonsController.ts:74 | the sprite URL is the fixed base, a slash, the id's `toString` (unpadded) and the fixed suffix, and the id reads back from between them |
| Formatting.DexNumber | app/Controllers/Http/PokemonsController.ts:75 | `#`, then zeros up to three digits, then all the id's digits, never truncated |
| Formatting.DexNumberRoundTrip | app/Controllers/Http/PokemonsController.ts:231 | the digits after `#` read back as the id |
| Formatting.DexNumberExamples | app/Controllers/Http/PokemonsController.ts:231 | ids 1, 25 and 1025 give `#001`, `#025` and `#1025` |
| Formatting.ChainId | app/Controllers/Http/PokemonsController.ts:157 | `+url.split('/').slice(-2)[0]`: a URL without a slash converts whole |
| Formatting.ChainIdSecondToLast | app/Controllers/Http/PokemonsController.ts:157 | whatever precedes the last two slashes, the chain id is the number written between them |
| Formatting.ChainIdFirstOfTwo | app/Controllers/Http/PokemonsController.ts:157 | with exactly one slash, the chain id is the number written before it |
| Formatting.ChainIdOfResourceUrl | app/Controllers/Http/PokemonsController.ts:156-158 | a URL `<prefix>/<id>/` yields the id from its second-to-last segment |
| Formatting.ChainIdExample | app/Controllers/Http/PokemonsController.ts:157 | `.../evolution-chain/10/` yields 10 |
| Formatting.HatchCount | app/Controllers/Http/PokemonsController.ts:134 | a whole number of 255-step cycles, one more than the hatch counter |
| Formatting.FlavorText | app/Controllers/Http/PokemonsController.ts:121-123 | undefined iff no entry has the language; otherwise the first such text with line feeds turned into spaces |
| Formatting.ToListItem | app/Controllers/Http/PokemonsController.ts:45-77 | a list item succeeds iff the species, colour and every type have the language; it holds the localised name, the lower-cased type and colour names, the colour id, the sprite, the dex number and the id |
| Formatting.ListView | app/Controllers/Http/PokemonsController.ts:45-80 | the page maps item by item in order and fails as a whole |
| Varieties.Filter | app/Controllers/Http/PokemonsController.ts:168-170 | `filter` keeps exactly the elements passing the test and adds none |
| Varieties.FilterOne | app/Controllers/Http/PokemonsController.ts:168-170 | a single element is kept exactly when it passes; with the append law, `filter` keeps order and every copy |
| Varieties.SpecialForms | app/Controllers/Http/PokemonsController.ts:168-170 | the varieties kept are exactly the non-default ones whose name does not contain `-starter` |
| Varieties.SpecialFormsInOrder | app/Controllers/Http/PokemonsController.ts:168-170 | the filter keeps input order: a concatenation's forms are those of its parts, in order |
| Varieties.FormName | app/Controllers/Http/PokemonsController.ts:176-181 | a non-empty requested-language name, else the first English name, else failure |
| Varieties.CapName | app/Controllers/Http/PokemonsController.ts:184-204 | outside French, or without ` Cap `, the name is unchanged; a rewritten name starts with the species name |
| Varieties.GigamaxName | app/Controllers/Http/PokemonsController.ts:207-209 | in French a name containing `Gigantamax` becomes `<species> Gigamax`; any other name is unchanged |
| Varieties.DisplayName | app/Controllers/Http/PokemonsController.ts:176-209 | the display name exists iff the form name does, and a form name with neither ` Cap ` nor `Gigantamax` is shown unchanged |
| Varieties.ResolveDisplayName | app/Controllers/Http/PokemonsController.ts:176-209 | the step-by-step reassignment of `name` yields the reference display name: the form name, then the cap rule, then the Gigantamax rule |
| Varieties.NonFrenchNamesKept | app/Controllers/Http/PokemonsController.ts:184-209 | outside French the form name is never rewritten |
| Varieties.CapRule | app/Controllers/Http/PokemonsController.ts:184-204 | for a French name containing ` Cap `, the token before the first space decides: a region gives `<species> Casquette de <region>`; Partner, Original and World give their phrases; any other token leaves the name |
| Varieties.HoennCapExample | app/Controllers/Http/PokemonsController.ts:184-209 | "Hoenn Cap Pikachu" in French becomes "Pikachu Casquette de Hoenn" |
| Varieties.GigamaxRule | app/Controllers/Http/PokemonsController.ts:207-209 | a French form name containing `Gigantamax` and not ` Cap ` becomes `<species> Gigamax` |
| Varieties.EdgeFor | app/Controllers/Http/PokemonsController.ts:171-219 | one variety's edge exists iff its display name does, and goes from the species' name and sprite to the display name and the variety's sprite |
| Varieties.VarietyEdges | app/Controllers/Http/PokemonsController.ts:167-221 | one edge per special form, in order, from the species' name and sprite to the form's display name and sprite; fails iff some display name fails |
| Evolution.OptionalName | app/Controllers/Http/PokemonsController.ts:272-295 | an absent reference stays null; a present one gives its first name in the language or fails |
| Evolution.ResolveDetail | app/Controllers/Http/PokemonsController.ts:263-303 | a detail resolves iff its trigger and each present reference have the language; item, move type and location are null exactly when absent in the record; the other fields are kept |
| Evolution.ResolveDetailSteps | app/Controllers/Http/PokemonsController.ts:265-303 | the null-then-overwrite steps yield the reference resolved detail |
| Evolution.View | app/Controllers/Http/PokemonsController.ts:311-320 | an edge end is the species' name in the language, its sprite and its id |
| Evolution.EdgeFor | app/Controllers/Http/PokemonsController.ts:259-322 | the edge parent → child has both ends' views and one resolved detail per `evolution_details` record, in order |
| Evolution.Walk | app/Controllers/Http/PokemonsController.ts:257-327 | `getEvolutionDetails`: one entry per child |
| Evolution.WalkIsMapAll | app/Controllers/Http/PokemonsController.ts:258-259 | the walk is `Promise.all` over the children mapped to their entries |
| Evolution.WalkPerChild | app/Controllers/Http/PokemonsController.ts:258-259 | the walk succeeds iff every child's entry does, and its i-th entry is the i-th child's entry |
| Evolution.Branch | app/Controllers/Http/PokemonsController.ts:259-325 | one child's entry is an array of one more element than the child has children |
| Evolution.BranchShape | app/Controllers/Http/PokemonsController.ts:307-324 | a child's entry `[edge, ...chains]` is its edge followed by each grandchild's entry in order, and fails iff the edge or one of those fails |
| Evolution.Flatten | app/Controllers/Http/PokemonsController.ts:250 | `flattenDeep` loses no edge at any depth and adds none |
| Evolution.FlattenCons | app/Controllers/Http/PokemonsController.ts:250 | flattening a list is flattening its first entry followed by flattening the rest |
| Evolution.RegularChains | app/Controllers/Http/PokemonsController.ts:160-164 | `chains.regular` is the pre-order list of parent/child steps from the root, each turned into its edge |
| Evolution.WalkIsPreOrder | app/Controllers/Http/PokemonsController.ts:257-327 | the flattened walk equals the pre-order steps (each child's edge, then its whole subtree, then the next sibling), each turned into its edge |
| Evolution.StepsCount | app/Controllers/Http/PokemonsController.ts:257-327 | there is one pre-order step per node below the starting species |
| Evolution.RegularChainsShape | app/Controllers/Http/PokemonsController.ts:250 | `chains.regular` has one edge per non-root node, edge i being the edge of step i, and fails iff some step's edge fails |
| Evolution.PreOrderExample | app/Controllers/Http/PokemonsController.ts:307-324 | A → [B, C] with B → [D] gives the steps A→B, B→D, A→C |

## Left out

- Fetches, request validation and error responses are not modelled. This
  covers `P.get*`, `request.validate`, `request.header` and
  `response.badRequest` (PokemonsController.ts:28-43, 83-85). Fetched
  records are inputs. Upstream and validation failures are not
  represented.
- `Promise.all` concurrency is not modelled. The output order is the
  input order, so a sequential traversal is faithful.
- Only one error is represented, `LocalisationMissing`. Which of several
  failing lookups is reported first is therefore not distinguished.
- The gender-rate strings (PokemonsController.ts:130-133) are left out.
  They are floating-point-to-string formatting.
- Genus, egg groups and stat names (PokemonsController.ts:117, 135-151)
  are the same first-entry lookup as `Localisation.Required` and
  `Localisation.LocaliseAll`. They are not modelled as separate fields of
  a detail-page record.
- Pokedex.DmToM: does not model IEEE rounding; the division by 10 is
  exact real division.
- Pokedex.DgToKg: does not model IEEE rounding; the division by 10 is
  exact real division.
- JsText.LowerAscii: lower-cases ASCII letters only. Unicode case
  mapping has no counterpart in Dafny.
- JsText.NumberValue: unary `+` is modelled on digit strings
  only. Whitespace trimming, signs, hexadecimal, exponents and `NaN` are
  not modelled, and a non-numeric segment gives `None`.
- JavaScript numbers are modelled as `int` or `nat`: ids, hatch
  counters and the numeric config fields. Fractional values and `NaN`
  cannot be expressed. `NaN` is falsy, so `offset: NaN` would keep the
  default; the model has no such input.
- The result dictionaries of `getDamagesInfos` are Dafny maps. The
  insertion order of the returned objects' keys is not modelled.
- lodash `flattenDeep` is defined directly as `Evolution.Flatten` over
  the nesting the walk builds.
- The `NodeCache` instance is an opaque `CacheHandle`. Its contents are
  not modelled.
- The second `getEvolutionDetails` in utils/pokedex.ts:66-136 is not
  part of this model. It refers to an undeclared global, and the
  controller does not import it.
- start/routes.ts is not part of this model. It only registers routes.
