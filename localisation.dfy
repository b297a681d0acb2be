/** Localised-name lookups over PokéAPI's multilingual lists (`names`,
    `genera`, `flavor_text_entries`): the controller always takes the
    first entry whose `language.name` is the requested language. */
module Localisation {
  import opened Outcomes
  import JsText

  /** One element of a multilingual list: `{ language: { name }, name }`
      (or `genus`, or `flavor_text`). */
  datatype Entry = Entry(language: string, text: string)

  /** `entries.filter((e) => e.language.name === lang)[0]` (and the same
      `find`): the text of the first entry in `lang`, if there is one. */
  function FirstFor(entries: seq<Entry>, lang: string): (r: Option<string>)
    ensures r.None? <==> forall i :: 0 <= i < |entries| ==> entries[i].language != lang
    ensures r.Some? ==> exists i :: 0 <= i < |entries| && entries[i] == Entry(lang, r.value)
                                    && forall j :: 0 <= j < i ==> entries[j].language != lang
    decreases |entries|
  {
    if entries == [] then None
    else if entries[0].language == lang then Some(entries[0].text)
    else
      var r := FirstFor(entries[1..], lang);
      assert forall i :: 1 <= i < |entries| ==> entries[i] == entries[1..][i - 1];
      r
  }

  /** `entries.filter(...)[0].name`: reading `.name` of a missing first
      entry throws, so a language with no entry is a failure, never a
      default. */
  function Required(entries: seq<Entry>, lang: string): (r: Result<string>)
    ensures r.Success? <==> exists i :: 0 <= i < |entries| && entries[i].language == lang
    ensures r.Success? ==> FirstFor(entries, lang) == Some(r.value)
  {
    FromOption(FirstFor(entries, lang))
  }

  /** An entry in `lang` that no earlier entry in `lang` precedes is the
      one the lookup returns: entries in other languages before it and
      every entry after it are irrelevant. */
  lemma {:induction false} FirstForPicksEarliest(entries: seq<Entry>, lang: string, i: nat)
    requires i < |entries| && entries[i].language == lang
    requires forall j :: 0 <= j < i ==> entries[j].language != lang
    ensures FirstFor(entries, lang) == Some(entries[i].text)
    decreases i
  {
    if i > 0 {
      FirstForPicksEarliest(entries[1..], lang, i - 1);
    }
  }

  /** Several independent lookups, fail-fast and in input order, as the
      `Promise.all` over egg groups and stats and the map over types do. */
  function LocaliseAll(lists: seq<seq<Entry>>, lang: string): (r: Result<seq<string>>)
    ensures r.Success? <==> forall i :: 0 <= i < |lists| ==> FirstFor(lists[i], lang).Some?
    ensures r.Success? ==> |r.value| == |lists|
    ensures r.Success? ==> forall i :: 0 <= i < |lists| ==> FirstFor(lists[i], lang) == Some(r.value[i])
  {
    MapAll(lists, (names: seq<Entry>) => Required(names, lang))
  }

  /** Type and colour names are additionally lower-cased
      (`.map((t) => t.toLowerCase())`). */
  function LocaliseAllLower(lists: seq<seq<Entry>>, lang: string): (r: Result<seq<string>>)
    ensures r.Success? <==> LocaliseAll(lists, lang).Success?
    ensures r.Success? ==> |r.value| == |lists|
    ensures r.Success? ==> forall i :: 0 <= i < |lists| ==>
              r.value[i] == JsText.LowerAscii(FirstFor(lists[i], lang).value)
  {
    match LocaliseAll(lists, lang)
    case Success(names) => Success(seq(|names|, i requires 0 <= i < |names| => JsText.LowerAscii(names[i])))
    case Failure(e) => Failure(e)
  }
}
