/** The older exporter's view of a roster record: the fields it pulls out of
    the record and the text card it writes for each Pokémon. */
module PokeLookupLegacy {
  import opened Outcomes
  import opened Text
  import opened PokeApi

  /** The exporter's Pokémon: the record itself and the fields copied out of
      it. Types stay the names the record spells, unresolved. */
  datatype LegacyPokemon = LegacyPokemon(
    d: RawRecord,
    id: int,
    name: string,
    speciesName: string,
    type1: string,
    type2: Option<string>,
    pastTypes: seq<PastTypes>)

  /** `Pokemon(d)`: copies the identifier, name and species name, takes the
      first type name and the second when the record has more than one, and
      keeps `past_types`. A record without types raises `IndexError` at
      `d['types'][0]`. */
  function FromRecord(d: RawRecord): (r: Result<LegacyPokemon>)
    ensures r.Raised? <==> |d.types| == 0
    ensures r.Raised? ==> r.error == IndexError
    ensures r.Ok? ==>
      var p := r.value;
      p.d == d && p.id == d.id && p.name == d.name && p.speciesName == d.speciesName &&
      p.type1 == d.types[0] && p.pastTypes == d.pastTypes &&
      (p.type2.Some? <==> |d.types| > 1) &&
      (p.type2.Some? ==> p.type2.value == d.types[1])
  {
    if |d.types| == 0 then Raised(IndexError)
    else
      var type2 := if |d.types| > 1 then Some(d.types[1]) else None;
      Ok(LegacyPokemon(d, d.id, d.name, d.speciesName, d.types[0], type2, d.pastTypes))
  }

  /** Python truthiness of `self.type2`: neither `None` nor the empty string. */
  predicate Truthy(s: Option<string>)
  {
    s.Some? && s.value != ""
  }

  /** The third line of the card: the first type, then ` | ` and the second
      type when that is truthy. */
  function LegacyTypeLine(p: LegacyPokemon): string
  {
    Title(p.type1) + (if Truthy(p.type2) then " | " + Title(p.type2.value) else "")
  }

  /** The first two lines of the card without their breaks. */
  function NumberLine(p: LegacyPokemon): string
  {
    "No. " + IntToDecimal(p.id)
  }

  function NameLine(p: LegacyPokemon): string
  {
    Title(p.name) + " - " + Title(p.speciesName)
  }

  /** The whole card: number, title-cased name and species, types, a rule of dashes. */
  function LegacyCard(p: LegacyPokemon): string
  {
    Terminated([NumberLine(p), NameLine(p), LegacyTypeLine(p), Separator])
  }

  /** `Pokemon.__str__` of the exporter, building the card piece by piece. */
  method LegacyRender(p: LegacyPokemon) returns (poke: string)
    ensures poke == LegacyCard(p)
  {
    poke := "No. " + IntToDecimal(p.id) + "\n";
    poke := poke + Title(p.name) + " - " + Title(p.speciesName) + "\n";
    ghost var header := poke;
    assert header == NumberLine(p) + "\n" + NameLine(p) + "\n";
    poke := poke + Title(p.type1);
    if Truthy(p.type2) {
      poke := poke + " | " + Title(p.type2.value);
    }
    assert poke == header + LegacyTypeLine(p);
    poke := poke + "\n";
    poke := poke + Separator + "\n";
    TerminatedFour(NumberLine(p), NameLine(p), LegacyTypeLine(p), Separator);
  }

  /** The card opens with `No. {id}` and the name line, and closes with a line
      break, thirty dashes and a final line break. */
  lemma LegacyCardFrame(p: LegacyPokemon)
    ensures var card := LegacyCard(p);
      var head := "No. " + IntToDecimal(p.id) + "\n" + NameLine(p) + "\n";
      var tail := "\n" + Separator + "\n";
      |head| + |tail| <= |card| &&
      card[..|head|] == head &&
      card[|card| - |tail|..] == tail &&
      card[|head|..|card| - |tail|] == LegacyTypeLine(p)
  {
    var head := "No. " + IntToDecimal(p.id) + "\n" + NameLine(p) + "\n";
    var tail := "\n" + Separator + "\n";
    var card := LegacyCard(p);
    TerminatedFour(NumberLine(p), NameLine(p), LegacyTypeLine(p), Separator);
    assert card == head + LegacyTypeLine(p) + tail;
    assert card[..|head|] == head;
    assert card[|card| - |tail|..] == tail;
    assert card[|head|..|card| - |tail|] == LegacyTypeLine(p);
  }

  /** A truthy second type shows up as ` | ` after the first; a missing or
      empty one leaves the first type alone on its line. */
  lemma LegacyTypeLineBarIffSecond(p: LegacyPokemon)
    requires '|' !in p.type1
    requires p.type2.Some? ==> '|' !in p.type2.value
    ensures '|' in LegacyTypeLine(p) <==> Truthy(p.type2)
    ensures Truthy(p.type2) ==> LegacyTypeLine(p) == Title(p.type1) + " | " + Title(p.type2.value)
    ensures !Truthy(p.type2) ==> LegacyTypeLine(p) == Title(p.type1)
  {
    var a := Title(p.type1);
    TitleKeepsAbsent(p.type1, '|');
    if Truthy(p.type2) {
      TitleKeepsAbsent(p.type2.value, '|');
      FirstBarAt(a, Title(p.type2.value));
    } else {
      assert LegacyTypeLine(p) == a;
    }
  }

  /** Splitting the card at line breaks gives back its four lines and the
      empty remainder after the final break. */
  lemma LegacyCardLines(p: LegacyPokemon)
    requires '\n' !in p.name && '\n' !in p.speciesName && '\n' !in p.type1
    requires p.type2.Some? ==> '\n' !in p.type2.value
    ensures SplitLines(LegacyCard(p)) == [NumberLine(p), NameLine(p), LegacyTypeLine(p), Separator, ""]
  {
    NumberLineHasNoNewline(p.id);
    TitleKeepsAbsent(p.name, '\n');
    TitleKeepsAbsent(p.speciesName, '\n');
    TitleKeepsAbsent(p.type1, '\n');
    if p.type2.Some? {
      TitleKeepsAbsent(p.type2.value, '\n');
    }
    SeparatorIsDashes();
    SplitTerminated([NumberLine(p), NameLine(p), LegacyTypeLine(p), Separator]);
  }

  /** The card of a record shows its second type name exactly when the record
      has more than one type and that name is not empty. */
  lemma RecordCardTypes(d: RawRecord)
    requires |d.types| > 0
    ensures FromRecord(d).Ok?
    ensures LegacyTypeLine(FromRecord(d).value) ==
      Title(d.types[0]) + (if |d.types| > 1 && d.types[1] != "" then " | " + Title(d.types[1]) else "")
  {
    var p := FromRecord(d).value;
    assert Truthy(p.type2) <==> |d.types| > 1 && d.types[1] != "";
  }
}
