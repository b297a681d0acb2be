/** The controller's small formatters and the list-view projection:
    sprite URL, `#NNN` dex number, evolution-chain id taken from a URL,
    hatch count and flavour text. */
module Formatting {
  import opened Outcomes
  import opened JsText
  import opened Localisation

  const SpriteBase: string := "https://github.com/PokeAPI/sprites/blob/master/sprites/pokemon/other/official-artwork"
  const SpriteSuffix: string := ".png?raw=true"

  /** `${SPRITE_URL}/${id}.png?raw=true`: the fixed base, a slash, the
      id's `toString` (unpadded) and the fixed suffix; the id reads back
      from between the two. */
  function SpriteUrl(id: nat): (url: string)
    ensures |url| > |SpriteBase| + 1 + |SpriteSuffix|
    ensures url[..|SpriteBase| + 1] == SpriteBase + "/"
    ensures url[|url| - |SpriteSuffix|..] == SpriteSuffix
    ensures url[|SpriteBase| + 1..|url| - |SpriteSuffix|] == Decimal(id)
    ensures NumberValue(url[|SpriteBase| + 1..|url| - |SpriteSuffix|]) == Some(id)
  {
    var url := SpriteBase + "/" + Decimal(id) + SpriteSuffix;
    assert url[|SpriteBase| + 1..|url| - |SpriteSuffix|] == Decimal(id);
    url
  }

  /** `'#' + id.toString().padStart(3, '0')`: a hash, then the id's
      digits whole (never truncated), preceded by zeros up to three
      digits. */
  function DexNumber(id: nat): (r: string)
    ensures |r| == 1 + (if |Decimal(id)| >= 3 then |Decimal(id)| else 3)
    ensures r[0] == '#'
    ensures r[|r| - |Decimal(id)|..] == Decimal(id)
    ensures forall i :: 1 <= i < |r| - |Decimal(id)| ==> r[i] == '0'
  {
    var padded := PadStart(Decimal(id), 3, '0');
    var r := "#" + padded;
    assert r[1..] == padded;
    r
  }

  /** The digits after the hash read back as the id. */
  lemma DexNumberRoundTrip(id: nat)
    ensures NumberValue(DexNumber(id)[1..]) == Some(id)
  {
    var r := DexNumber(id);
    var d := Decimal(id);
    var z := r[1..|r| - |d|];
    assert r[1..] == z + d;
    LeadingZeros(z, d);
  }

  lemma DexNumberExamples()
    ensures DexNumber(1) == "#001"
    ensures DexNumber(25) == "#025"
    ensures DexNumber(1025) == "#1025"
  {
  }

  /** `+url.split('/').slice(-2)[0]`: the number written in the
      second-to-last `/`-separated segment (the only segment when there
      is no slash). */
  function ChainId(url: string): (r: Option<nat>)
    ensures '/' !in url ==> r == NumberValue(url)
  {
    var parts := Split(url, '/');
    assert '/' !in url ==> parts == [url] by {
      if '/' !in url {
        SplitWithoutSeparator(url, '/');
      }
    }
    NumberValue(if |parts| >= 2 then parts[|parts| - 2] else parts[0])
  }

  /** Whatever precedes the last two slashes, the id is read from the
      segment between them. */
  lemma ChainIdSecondToLast(prefix: string, segment: string, last: string)
    requires '/' !in segment && '/' !in last
    ensures ChainId(prefix + "/" + segment + "/" + last) == NumberValue(segment)
  {
    assert prefix + "/" + segment + "/" + last == prefix + ['/'] + (segment + ['/'] + last);
    SplitAppend(prefix, segment + ['/'] + last, '/');
    SplitAppend(segment, last, '/');
    SplitWithoutSeparator(segment, '/');
    SplitWithoutSeparator(last, '/');
  }
  /** With a single slash, the chain id is the number written before it. */
  lemma ChainIdFirstOfTwo(segment: string, last: string)
    requires '/' !in segment && '/' !in last
    ensures ChainId(segment + "/" + last) == NumberValue(segment)
  {
    assert segment + "/" + last == segment + ['/'] + last;
    SplitAppend(segment, last, '/');
    SplitWithoutSeparator(segment, '/');
    SplitWithoutSeparator(last, '/');
  }


  /** A resource URL `<prefix>/<id>/`, as PokéAPI writes them, yields its id. */
  lemma ChainIdOfResourceUrl(prefix: string, id: nat)
    ensures ChainId(prefix + "/" + Decimal(id) + "/") == Some(id)
  {
    var d := Decimal(id);
    assert '/' !in d;
    ChainIdSecondToLast(prefix, d, "");
    assert prefix + "/" + d + "/" + "" == prefix + "/" + d + "/";
    NumberValueOfDecimal(id);
  }

  lemma ChainIdExample()
    ensures ChainId("https://pokeapi.co/api/v2/evolution-chain/10/") == Some(10)
  {
    assert Decimal(10) == "10";
    ChainIdOfResourceUrl("https://pokeapi.co/api/v2/evolution-chain", 10);
    assert "https://pokeapi.co/api/v2/evolution-chain" + "/" + "10" + "/"
        == "https://pokeapi.co/api/v2/evolution-chain/10/";
  }

  /** `255 * (specie.hatch_counter + 1)`: a whole number of 255-step
      cycles, one more than the species' counter. */
  function HatchCount(hatchCounter: nat): (steps: nat)
    ensures steps % 255 == 0 && steps / 255 == hatchCounter + 1
  {
    255 * (hatchCounter + 1)
  }

  /** `flavor_text_entries.find(...)?.flavor_text.replace(/\n/g, ' ')`:
      no entry in the language gives `undefined` (not an error); an
      entry gives its text with every line feed turned into a space. */
  function FlavorText(entries: seq<Entry>, lang: string): (r: Option<string>)
    ensures r.None? <==> FirstFor(entries, lang).None?
    ensures r.Some? ==> |r.value| == |FirstFor(entries, lang).value| && '\n' !in r.value
    ensures r.Some? ==> forall i :: 0 <= i < |r.value| ==>
                          r.value[i] == (if FirstFor(entries, lang).value[i] == '\n' then ' '
                                         else FirstFor(entries, lang).value[i])
  {
    match FirstFor(entries, lang)
    case Some(text) => Some(ReplaceNewlines(text))
    case None => None
  }

  /** One element of the list view. */
  datatype ColorView = ColorView(name: string, id: string)
  datatype ListItem = ListItem(name: string, types: seq<string>, color: ColorView, spriteUrl: string, number: string, id: nat)

  /** The records `getPokemons` fetches for one Pokémon, reduced to what
      it reads. */
  datatype ListRecords = ListRecords(
    pokemonId: nat,
    typeNames: seq<seq<Entry>>,
    speciesNames: seq<Entry>,
    colorName: string,
    colorNames: seq<Entry>)

  /** One list-view element: the species name, type names and colour
      name in the requested language (the latter two lower-cased); any
      missing translation fails the whole request. */
  function ToListItem(rec: ListRecords, lang: string): (r: Result<ListItem>)
    ensures r.Success? <==> (FirstFor(rec.speciesNames, lang).Some?
                             && FirstFor(rec.colorNames, lang).Some?
                             && forall i :: 0 <= i < |rec.typeNames| ==> FirstFor(rec.typeNames[i], lang).Some?)
    ensures r.Success? ==> r.value.name == FirstFor(rec.speciesNames, lang).value
    ensures r.Success? ==> |r.value.types| == |rec.typeNames|
    ensures r.Success? ==> forall i :: 0 <= i < |rec.typeNames| ==>
              r.value.types[i] == LowerAscii(FirstFor(rec.typeNames[i], lang).value)
    ensures r.Success? ==> r.value.color == ColorView(LowerAscii(FirstFor(rec.colorNames, lang).value), rec.colorName)
    ensures r.Success? ==> r.value.id == rec.pokemonId && r.value.number == DexNumber(rec.pokemonId)
                           && r.value.spriteUrl == SpriteUrl(rec.pokemonId)
  {
    var types :- LocaliseAllLower(rec.typeNames, lang);
    var colorName :- Required(rec.colorNames, lang);
    var name :- Required(rec.speciesNames, lang);
    Success(ListItem(name, types, ColorView(LowerAscii(colorName), rec.colorName),
                     SpriteUrl(rec.pokemonId), DexNumber(rec.pokemonId), rec.pokemonId))
  }

  /** `Promise.all(results.map(...))`: the list keeps the order of the
      page and fails as a whole. */
  function ListView(page: seq<ListRecords>, lang: string): (r: Result<seq<ListItem>>)
    ensures r.Success? <==> forall i :: 0 <= i < |page| ==> ToListItem(page[i], lang).Success?
    ensures r.Success? ==> |r.value| == |page|
    ensures r.Success? ==> forall i :: 0 <= i < |page| ==> ToListItem(page[i], lang) == Success(r.value[i])
  {
    MapAll(page, (rec: ListRecords) => ToListItem(rec, lang))
  }
}
