/** Special forms ("varieties") of a species: which varieties are shown,
    the display name each gets, and the French rewriting of cap and
    Gigantamax form names. */
module Varieties {
  import opened Outcomes
  import opened JsText
  import opened Localisation
  import Formatting

  /** One element of `specie.varieties`. */
  datatype Variety = Variety(isDefault: bool, pokemonName: string)

  // ---------------------------------------------------------------
  // Filtering
  // ---------------------------------------------------------------

  /** `s.filter(keep)` */
  function Filter<T(!new)>(s: seq<T>, keep: T -> bool): (r: seq<T>)
    ensures |r| <= |s|
    ensures forall x :: x in r <==> x in s && keep(x)
    decreases |s|
  {
    if s == [] then []
    else
      var rest := Filter(s[1..], keep);
      assert forall x :: x in s <==> x == s[0] || x in s[1..];
      (if keep(s[0]) then [s[0]] else []) + rest
  }

  /** Filtering a concatenation filters each part, keeping their order. */
  lemma {:induction false} FilterAppend<T(!new)>(a: seq<T>, b: seq<T>, keep: T -> bool)
    ensures Filter(a + b, keep) == Filter(a, keep) + Filter(b, keep)
    decreases |a|
  {
    if a == [] {
      assert a + b == b;
    } else {
      assert (a + b)[0] == a[0];
      assert (a + b)[1..] == a[1..] + b;
      FilterAppend(a[1..], b, keep);
    }
  }

  /** A single element is kept exactly when it passes; with
      `FilterAppend` this fixes the order and multiplicity of every
      element kept. */
  lemma FilterOne<T(!new)>(x: T, keep: T -> bool)
    ensures Filter([x], keep) == if keep(x) then [x] else []
  {
    assert [x][1..] == [];
  }

  predicate NotDefault(v: Variety) { v.isDefault == false }

  predicate NotStarter(v: Variety) { IndexOf(v.pokemonName, "-starter") == -1 }

  /** `.filter((v) => v.is_default === false).filter((v) => v.pokemon.name.indexOf('-starter') === -1)`:
      the varieties shown are exactly the non-default ones whose name
      does not contain `-starter`. */
  function SpecialForms(varieties: seq<Variety>): (r: seq<Variety>)
    ensures forall v :: v in r <==> v in varieties && !v.isDefault && !Contains(v.pokemonName, "-starter")
  {
    Filter(Filter(varieties, NotDefault), NotStarter)
  }

  /** The filter keeps input order: a concatenation's special forms are
      those of its first part followed by those of its second, and a
      single variety is kept or dropped on its own merits. */
  lemma SpecialFormsInOrder(a: seq<Variety>, b: seq<Variety>, v: Variety)
    ensures SpecialForms(a + b) == SpecialForms(a) + SpecialForms(b)
    ensures SpecialForms([v]) == if !v.isDefault && !Contains(v.pokemonName, "-starter") then [v] else []
  {
    FilterAppend(a, b, NotDefault);
    FilterAppend(Filter(a, NotDefault), Filter(b, NotDefault), NotStarter);
    assert [v][1..] == [];
  }

  // ---------------------------------------------------------------
  // Display names
  // ---------------------------------------------------------------

  const Regions: seq<string> := ["Hoenn", "Sinnoh", "Unova", "Kalos", "Alola"]

  /** `getPokemon`, first step of a variety's name: the first form name in the requested language;
      when there is none, or it is empty (both falsy), the first English
      one; when that is missing too, reading `.name` throws. */
  function FormName(formNames: seq<Entry>, lang: string): (r: Result<string>)
    ensures r.Success? <==> (FirstFor(formNames, lang).Some? && FirstFor(formNames, lang).value != "")
                            || FirstFor(formNames, "en").Some?
    ensures r.Success? && FirstFor(formNames, lang).Some? && FirstFor(formNames, lang).value != "" ==>
              r.value == FirstFor(formNames, lang).value
    ensures r.Success? && (FirstFor(formNames, lang).None? || FirstFor(formNames, lang).value == "") ==>
              r.value == FirstFor(formNames, "en").value
  {
    var requested := FirstFor(formNames, lang);
    if requested.Some? && requested.value != "" then Success(requested.value)
    else Required(formNames, "en")
  }

  /** `getPokemon`'s cap rule: in French, a name containing " Cap " is
      rewritten according to its first space-separated token (`CapRule`
      gives the outcome per token); any other name is left alone. */
  function CapName(lang: string, name: string, pokeName: string): (r: string)
    ensures lang != "fr" || !Contains(name, " Cap ") ==> r == name
    ensures r != name ==> |r| > |pokeName| && r[..|pokeName|] == pokeName
  {
    if lang == "fr" && IndexOf(name, " Cap ") != -1 then
      var token := Split(name, ' ')[0];
      var afterRegion := if token in Regions then pokeName + " Casquette de " + token else name;
      if token == "Partner" then pokeName + " Casquette Partenaire"
      else if token == "Original" then pokeName + " Casquette Originale"
      else if token == "World" then pokeName + " Casquette Monde"
      else afterRegion
    else name
  }

  /** `getPokemon`'s Gigantamax rule: in French, a name containing
      "Gigantamax" becomes "<species name> Gigamax". */
  function GigamaxName(lang: string, name: string, pokeName: string): (r: string)
    ensures lang == "fr" && Contains(name, "Gigantamax") ==> r == pokeName + " Gigamax"
    ensures lang != "fr" || !Contains(name, "Gigantamax") ==> r == name
  {
    if lang == "fr" && IndexOf(name, "Gigantamax") != -1 then pokeName + " Gigamax" else name
  }

  /** A variety's display name: the form name, then the cap rule, then
      the Gigantamax rule (which therefore sees the cap rule's output). */
  function DisplayName(formNames: seq<Entry>, lang: string, pokeName: string): (r: Result<string>)
    ensures r.Success? <==> FormName(formNames, lang).Success?
    ensures (r.Success? && !Contains(FormName(formNames, lang).value, " Cap ")
             && !Contains(FormName(formNames, lang).value, "Gigantamax")) ==> r.value == FormName(formNames, lang).value
  {
    var name :- FormName(formNames, lang);
    Success(GigamaxName(lang, CapName(lang, name, pokeName), pokeName))
  }

  /** The variety naming in `getPokemon` as written: `name` is assigned, then conditionally
      reassigned step by step. */
  method ResolveDisplayName(formNames: seq<Entry>, lang: string, pokeName: string) returns (r: Result<string>)
    ensures r == DisplayName(formNames, lang, pokeName)
  {
    var found := FirstFor(formNames, lang);
    var name := if found.Some? then found.value else "";
    if found.None? || name == "" {
      var english := FirstFor(formNames, "en");
      if english.None? {
        return Failure(LocalisationMissing);
      }
      name := english.value;
    }
    if lang == "fr" && IndexOf(name, " Cap ") != -1 {
      var token := Split(name, ' ')[0];
      if token in Regions {
        name := pokeName + " Casquette de " + token;
      }
      if token == "Partner" {
        name := pokeName + " Casquette Partenaire";
      } else if token == "Original" {
        name := pokeName + " Casquette Originale";
      } else if token == "World" {
        name := pokeName + " Casquette Monde";
      }
    }
    if lang == "fr" && IndexOf(name, "Gigantamax") != -1 {
      name := pokeName + " Gigamax";
    }
    r := Success(name);
  }

  /** Outside French, names are never rewritten. */
  lemma NonFrenchNamesKept(formNames: seq<Entry>, lang: string, pokeName: string)
    requires lang != "fr"
    ensures DisplayName(formNames, lang, pokeName) == FormName(formNames, lang)
  {
  }

  /** The cap rule is decided by the text before the first space: a
      region gives "<species> Casquette de <region>", Partner, Original
      and World give their fixed phrases, any other token leaves the
      name alone. */
  lemma {:induction false} CapRule(token: string, rest: string, pokeName: string)
    requires ' ' !in token
    requires Contains(token + " " + rest, " Cap ")
    ensures CapName("fr", token + " " + rest, pokeName) ==
              if token in Regions then pokeName + " Casquette de " + token
              else if token == "Partner" then pokeName + " Casquette Partenaire"
              else if token == "Original" then pokeName + " Casquette Originale"
              else if token == "World" then pokeName + " Casquette Monde"
              else token + " " + rest
  {
    assert token + " " + rest == token + [' '] + rest;
    SplitAppend(token, rest, ' ');
    SplitWithoutSeparator(token, ' ');
  }

  /** "Hoenn Cap Pikachu" in French, for the species "Pikachu". */
  lemma HoennCapExample()
    ensures DisplayName([Entry("fr", "Hoenn" + " " + "Cap Pikachu")], "fr", "Pikachu")
         == Success("Pikachu" + " Casquette de " + "Hoenn")
  {
    HoennCapStep();
    HoennGigamaxStep();
  }

  lemma HoennCapStep()
    ensures CapName("fr", "Hoenn" + " " + "Cap Pikachu", "Pikachu") == "Pikachu" + " Casquette de " + "Hoenn"
  {
    var name := "Hoenn" + " " + "Cap Pikachu";
    assert name == "Hoenn" + " Cap " + "Pikachu";
    assert ("Hoenn" + " Cap " + "Pikachu")[5..10] == " Cap ";
    assert OccursAt(name, " Cap ", 5);
    CapRule("Hoenn", "Cap Pikachu", "Pikachu");
    assert "Hoenn" in Regions;
  }

  lemma HoennGigamaxStep()
    ensures GigamaxName("fr", "Pikachu" + " Casquette de " + "Hoenn", "Pikachu") == "Pikachu" + " Casquette de " + "Hoenn"
  {
    var out := "Pikachu" + " Casquette de " + "Hoenn";
    assert 'G' !in out;
    AbsentFirstChar(out, "Gigantamax");
  }

  /** A text lacking the first character of `sub` does not contain `sub`. */
  lemma AbsentFirstChar(s: string, sub: string)
    requires |sub| > 0 && sub[0] !in s
    ensures !Contains(s, sub)
  {
  }

  /** A French Gigantamax form without " Cap " is named after the
      species. */
  lemma GigamaxRule(formNames: seq<Entry>, pokeName: string)
    requires FormName(formNames, "fr").Success?
    requires !Contains(FormName(formNames, "fr").value, " Cap ")
    requires Contains(FormName(formNames, "fr").value, "Gigantamax")
    ensures DisplayName(formNames, "fr", pokeName) == Success(pokeName + " Gigamax")
  {
  }

  // ---------------------------------------------------------------
  // Variety edges
  // ---------------------------------------------------------------

  datatype End = End(name: string, spriteUrl: string)
  datatype VarietyEdge = VarietyEdge(from: End, to: End)

  /** What `getPokemonByName` and `getPokemonFormByName` return for a
      variety's pokemon name, reduced to what is read: its id and its
      form names. */
  datatype FormRecords = FormRecords(pokemonId: string -> nat, formNames: string -> seq<Entry>)

  /** One variety's edge: from the species to the form's display name
      and the variety's own sprite. */
  function EdgeFor(lang: string, pokeName: string, speciesId: nat, v: Variety, records: FormRecords): (r: Result<VarietyEdge>)
    ensures r.Success? <==> DisplayName(records.formNames(v.pokemonName), lang, pokeName).Success?
    ensures r.Success? ==> r.value.from == End(pokeName, Formatting.SpriteUrl(speciesId))
                           && Success(r.value.to.name) == DisplayName(records.formNames(v.pokemonName), lang, pokeName)
                           && r.value.to.spriteUrl == Formatting.SpriteUrl(records.pokemonId(v.pokemonName))
  {
    var name :- DisplayName(records.formNames(v.pokemonName), lang, pokeName);
    Success(VarietyEdge(End(pokeName, Formatting.SpriteUrl(speciesId)),
                        End(name, Formatting.SpriteUrl(records.pokemonId(v.pokemonName)))))
  }

  /** `varietties`: one edge per special form, in order, from the species
      (its localised name and sprite) to the form (its display name and
      sprite); one missing name fails them all. */
  function VarietyEdges(lang: string, pokeName: string, speciesId: nat, varieties: seq<Variety>, records: FormRecords)
    : (r: Result<seq<VarietyEdge>>)
    ensures var forms := SpecialForms(varieties);
            r.Success? <==> forall i :: 0 <= i < |forms| ==>
                              DisplayName(records.formNames(forms[i].pokemonName), lang, pokeName).Success?
    ensures var forms := SpecialForms(varieties);
            r.Success? ==> |r.value| == |forms| && forall i :: 0 <= i < |forms| ==>
              && r.value[i].from == End(pokeName, Formatting.SpriteUrl(speciesId))
              && Success(r.value[i].to.name) == DisplayName(records.formNames(forms[i].pokemonName), lang, pokeName)
              && r.value[i].to.spriteUrl == Formatting.SpriteUrl(records.pokemonId(forms[i].pokemonName))
  {
    MapAll(SpecialForms(varieties), (v: Variety) => EdgeFor(lang, pokeName, speciesId, v, records))
  }
}
