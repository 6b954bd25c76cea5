/** The lookup engine: a resolved Pokémon, the effectiveness of an attack type
    against it, its text card, and the roster search that builds it. */
module PokeLookupCore {
  import opened Outcomes
  import opened Text
  import opened PokeTypes
  import opened PokeApi

  /** A resolved Pokémon: identifier and name copied from its record, a first
      type, and a second type that is absent for single-type species. */
  datatype Pokemon = Pokemon(id: int, name: string, type1: PokeType, type2: Option<PokeType>)

  /** The products an attack can reach against one or two types. */
  predicate IsEffectivenessValue(x: real)
  {
    x == 0.0 || x == 0.25 || x == 0.5 || x == 1.0 || x == 2.0 || x == 4.0
  }

  /** `get_type_effectiveness`: the chart entry for the first type times the
      entry for the second type, or times 1 when there is none. */
  function Effectiveness(p: Pokemon, attack: PokeType): (r: real)
    ensures IsEffectivenessValue(r)
    ensures 0.0 <= r <= 4.0
  {
    var type1Effectiveness := Multiplier(attack, p.type1);
    var type2Effectiveness := if p.type2.None? then 1.0 else Multiplier(attack, p.type2.value);
    type1Effectiveness * type2Effectiveness
  }

  /** A single-type Pokémon takes exactly its chart entry; a dual-type one the
      product of both entries. */
  lemma EffectivenessByTypes(p: Pokemon, attack: PokeType)
    ensures p.type2.None? ==> Effectiveness(p, attack) == Multiplier(attack, p.type1)
    ensures p.type2.Some? ==>
      Effectiveness(p, attack) == Multiplier(attack, p.type1) * Multiplier(attack, p.type2.value)
  {
  }

  /** The order of the two types does not matter. */
  lemma EffectivenessIgnoresTypeOrder(p: Pokemon, attack: PokeType)
    requires p.type2.Some?
    ensures Effectiveness(p, attack) ==
      Effectiveness(Pokemon(p.id, p.name, p.type2.value, Some(p.type1)), attack)
  {
  }

  /** An attack does nothing exactly when one of the types is immune to it. */
  lemma EffectivenessZeroIffImmune(p: Pokemon, attack: PokeType)
    ensures Effectiveness(p, attack) == 0.0 <==>
      p.type1 in NoEffectOn(attack) || (p.type2.Some? && p.type2.value in NoEffectOn(attack))
  {
    MultiplierClassified(attack, p.type1);
    if p.type2.Some? {
      MultiplierClassified(attack, p.type2.value);
    }
  }

  /** An attack does four times the damage exactly when both types are weak to it. */
  lemma EffectivenessQuadrupleIffDoubleWeak(p: Pokemon, attack: PokeType)
    ensures Effectiveness(p, attack) == 4.0 <==>
      p.type1 in SuperEffectiveAgainst(attack) &&
      p.type2.Some? && p.type2.value in SuperEffectiveAgainst(attack)
  {
    MultiplierClassified(attack, p.type1);
    if p.type2.Some? {
      MultiplierClassified(attack, p.type2.value);
    }
  }

  /** Ice against a grass and flying Pokémon: 2 times 2. */
  lemma IceAgainstGrassFlying(id: int, name: string)
    ensures Effectiveness(Pokemon(id, name, Grass, Some(Flying)), Ice) == 4.0
  {
  }

  // ---------------------------------------------------------------------
  // The text card of `Pokemon.__str__`.

  /** A type as the card shows it: `t.name.title()`. */
  function TypeLabel(t: PokeType): string
  {
    Title(t.Name())
  }

  /** The third line of the card: the first type, then ` | ` and the second
      type when there is one. */
  function TypeLine(p: Pokemon): string
  {
    TypeLabel(p.type1) + (if p.type2.Some? then " | " + TypeLabel(p.type2.value) else "")
  }

  /** The whole card: number, title-cased name, types, a rule of dashes. */
  function Card(p: Pokemon): string
  {
    Terminated(["No. " + IntToDecimal(p.id), Title(p.name), TypeLine(p), Separator])
  }

  /** `Pokemon.__str__`, building the card piece by piece. */
  method Render(p: Pokemon) returns (poke: string)
    ensures poke == Card(p)
  {
    poke := "No. " + IntToDecimal(p.id) + "\n";
    poke := poke + Title(p.name) + "\n";
    ghost var header := poke;
    poke := poke + TypeLabel(p.type1);
    if p.type2.Some? {
      poke := poke + " | " + TypeLabel(p.type2.value);
    }
    assert poke == header + TypeLine(p);
    poke := poke + "\n";
    poke := poke + Separator + "\n";
    TerminatedFour("No. " + IntToDecimal(p.id), Title(p.name), TypeLine(p), Separator);
  }

  /** A type label is the member name with only its first letter upper-case,
      so it reads back to the member and holds no bar and no line break. */
  lemma TypeLabelFacts(t: PokeType)
    ensures Upper(TypeLabel(t)) == t.Name()
    ensures '|' !in TypeLabel(t) && '\n' !in TypeLabel(t)
  {
    NameIsUpper(t);
    TitleOfUpperWord(t.Name());
  }

  /** The type line shows a bar exactly when there is a second type. */
  lemma TypeLineBarIffSecondType(p: Pokemon)
    ensures '|' in TypeLine(p) <==> p.type2.Some?
    ensures '\n' !in TypeLine(p)
  {
    var a := TypeLabel(p.type1);
    TypeLabelFacts(p.type1);
    if p.type2.Some? {
      var c := TypeLabel(p.type2.value);
      TypeLabelFacts(p.type2.value);
      assert TypeLine(p) == a + " | " + c;
      assert (a + " | " + c)[|a| + 1] == '|';
    } else {
      assert TypeLine(p) == a;
    }
  }

  /** Splitting the card at line breaks gives back its four lines and the
      empty remainder after the final break. */
  lemma CardLines(p: Pokemon)
    requires '\n' !in p.name
    ensures SplitLines(Card(p)) ==
      ["No. " + IntToDecimal(p.id), Title(p.name), TypeLine(p), Separator, ""]
  {
    NumberLineHasNoNewline(p.id);
    TitleKeepsAbsent(p.name, '\n');
    TypeLineBarIffSecondType(p);
    SeparatorIsDashes();
    SplitTerminated(["No. " + IntToDecimal(p.id), Title(p.name), TypeLine(p), Separator]);
  }

  /** Different members have different labels. */
  lemma TypeLabelInjective(s: PokeType, t: PokeType)
    requires TypeLabel(s) == TypeLabel(t)
    ensures s == t
  {
    TypeLabelFacts(s);
    TypeLabelFacts(t);
    NameInjective(s, t);
  }

  /** The type line reads back to the two types. */
  lemma TypeLineInjective(p: Pokemon, q: Pokemon)
    requires TypeLine(p) == TypeLine(q)
    ensures p.type1 == q.type1 && p.type2 == q.type2
  {
    var a, b := TypeLabel(p.type1), TypeLabel(q.type1);
    TypeLabelFacts(p.type1);
    TypeLabelFacts(q.type1);
    TypeLineBarIffSecondType(p);
    TypeLineBarIffSecondType(q);
    if p.type2.Some? {
      var c, d := TypeLabel(p.type2.value), TypeLabel(q.type2.value);
      assert TypeLine(p) == a + " | " + c && TypeLine(q) == b + " | " + d;
      BarJoinInjective(a, c, b, d);
      TypeLabelInjective(p.type2.value, q.type2.value);
    } else {
      assert a == TypeLine(p) && b == TypeLine(q);
    }
    TypeLabelInjective(p.type1, q.type1);
  }

  /** From the card one reads back the identifier, the title-cased name and
      both types: two Pokémon with the same card differ at most in the case
      of their names. */
  lemma CardDeterminesPokemon(p: Pokemon, q: Pokemon)
    requires '\n' !in p.name && '\n' !in q.name
    requires Card(p) == Card(q)
    ensures p.id == q.id && Title(p.name) == Title(q.name)
    ensures p.type1 == q.type1 && p.type2 == q.type2
  {
    CardLines(p);
    CardLines(q);
    var lp, lq := SplitLines(Card(p)), SplitLines(Card(q));
    assert lp[0] == lq[0] && lp[1] == lq[1] && lp[2] == lq[2];
    var dp, dq := IntToDecimal(p.id), IntToDecimal(q.id);
    assert dp == lp[0][4..] && dq == lq[0][4..];
    DecimalRoundTrip(p.id);
    DecimalRoundTrip(q.id);
    TypeLineInjective(p, q);
  }

  // ---------------------------------------------------------------------
  // Resolving a raw record and searching the roster (`find_pokemon`).

  /** The Pokémon `find_pokemon` builds from a matching record: identifier and
      name verbatim, the first type from `types[0]`, the second from
      `types[1]` when there is more than one type, each by enumeration name. */
  function ResolveRecord(p: RawRecord): (r: Result<Pokemon>)
    ensures |p.types| == 0 ==> r == Raised(IndexError)
    ensures |p.types| > 0 && TypeFromName(p.types[0]).Raised? ==>
      r == Raised(KeyError(Upper(p.types[0])))
    ensures |p.types| > 1 && TypeFromName(p.types[0]).Ok? && TypeFromName(p.types[1]).Raised? ==>
      r == Raised(KeyError(Upper(p.types[1])))
    ensures r.Ok? ==>
      r.value.id == p.id && r.value.name == p.name &&
      r.value.type1.Name() == Upper(p.types[0]) &&
      (r.value.type2.Some? <==> |p.types| > 1) &&
      (r.value.type2.Some? ==> r.value.type2.value.Name() == Upper(p.types[1]))
  {
    if |p.types| == 0 then Raised(IndexError)
    else
      match TypeFromName(p.types[0])
      case Raised(e) => Raised(e)
      case Ok(type1) =>
        if |p.types| > 1 then
          match TypeFromName(p.types[1])
          case Raised(e) => Raised(e)
          case Ok(type2) => Ok(Pokemon(p.id, p.name, type1, Some(type2)))
        else Ok(Pokemon(p.id, p.name, type1, None))
  }

  /** A record whose type names are all members always resolves. */
  lemma ResolveRecordSucceeds(p: RawRecord)
    requires |p.types| > 0
    requires forall k | 0 <= k < |p.types| && k < 2 :: TypeFromName(p.types[k]).Ok?
    ensures ResolveRecord(p).Ok?
  {
    assert TypeFromName(p.types[0]).Ok?;
    if |p.types| > 1 {
      assert TypeFromName(p.types[1]).Ok?;
    }
  }

  /** The position of the first record named `key`, if any. */
  function FirstMatch(pokedex: seq<RawRecord>, key: string): (r: Option<nat>)
    ensures r.None? <==> forall i | 0 <= i < |pokedex| :: pokedex[i].name != key
    ensures r.Some? ==>
      r.value < |pokedex| && pokedex[r.value].name == key &&
      forall j | 0 <= j < r.value :: pokedex[j].name != key
  {
    if pokedex == [] then None
    else if pokedex[0].name == key then Some(0)
    else
      match FirstMatch(pokedex[1..], key)
      case None => None
      case Some(i) => Some(i + 1)
  }

  /** What `find_pokemon(name)` does with a roster: resolve the first record
      named `name.lower()`, or give `None` when there is none. The clause
      `p['id'] == id` compares with Python's built-in `id` function and never
      holds, so identifiers take no part. */
  function Lookup(pokedex: seq<RawRecord>, name: string): (r: Result<Option<Pokemon>>)
    ensures r == Ok(None) <==> forall i | 0 <= i < |pokedex| :: pokedex[i].name != Lower(name)
    ensures r.Ok? && r.value.Some? ==> r.value.value.name == Lower(name)
    ensures r.Raised? ==> r.error == IndexError || r.error.KeyError?
  {
    match FirstMatch(pokedex, Lower(name))
    case None => Ok(None)
    case Some(i) =>
      match ResolveRecord(pokedex[i])
      case Raised(e) => Raised(e)
      case Ok(poke) => Ok(Some(poke))
  }

  /** `PokeLookup.find_pokemon`, scanning the roster with an early return. */
  method FindPokemon(pokedex: seq<RawRecord>, name: string) returns (r: Result<Option<Pokemon>>)
    ensures r == Lookup(pokedex, name)
    ensures r == Ok(None) <==> forall i | 0 <= i < |pokedex| :: pokedex[i].name != Lower(name)
  {
    var key := Lower(name);
    for i := 0 to |pokedex|
      invariant forall j | 0 <= j < i :: pokedex[j].name != key
    {
      var p := pokedex[i];
      if p.name == key {
        LookupTakesFirst(pokedex, name, i);
        if |p.types| == 0 {
          return Raised(IndexError);
        }
        var type1 := TypeFromName(p.types[0]);
        if type1.Raised? {
          return Raised(type1.error);
        }
        var type2: Option<PokeType> := None;
        if |p.types| > 1 {
          var second := TypeFromName(p.types[1]);
          if second.Raised? {
            return Raised(second.error);
          }
          type2 := Some(second.value);
        }
        return Ok(Some(Pokemon(p.id, p.name, type1.value, type2)));
      }
    }
    return Ok(None);
  }

  /** The lookup gives `None` exactly when no record is named `name.lower()`,
      in particular for an empty roster. */
  lemma LookupNoneIffNoName(pokedex: seq<RawRecord>, name: string)
    ensures Lookup(pokedex, name) == Ok(None) <==>
      forall i | 0 <= i < |pokedex| :: pokedex[i].name != Lower(name)
    ensures pokedex == [] ==> Lookup(pokedex, name) == Ok(None)
  {
  }

  /** The lookup answers with the first record of that name, whatever follows it. */
  lemma LookupTakesFirst(pokedex: seq<RawRecord>, name: string, i: nat)
    requires i < |pokedex| && pokedex[i].name == Lower(name)
    requires forall j | 0 <= j < i :: pokedex[j].name != Lower(name)
    ensures Lookup(pokedex, name) ==
      match ResolveRecord(pokedex[i])
      case Raised(e) => Raised(e)
      case Ok(poke) => Ok(Some(poke))
  {
    var m := FirstMatch(pokedex, Lower(name));
    assert m.Some?;
    assert m.value == i;
  }

  /** Records after a match never change the answer. */
  lemma LookupIgnoresLaterRecords(pokedex: seq<RawRecord>, later: seq<RawRecord>, name: string)
    requires exists i | 0 <= i < |pokedex| :: pokedex[i].name == Lower(name)
    ensures Lookup(pokedex + later, name) == Lookup(pokedex, name)
  {
    var key := Lower(name);
    var i := FirstMatch(pokedex, key).value;
    var all := pokedex + later;
    assert all[i] == pokedex[i];
    assert forall j | 0 <= j < i :: all[j] == pokedex[j];
    LookupTakesFirst(all, name, i);
    LookupTakesFirst(pokedex, name, i);
  }

  /** The query's case does not matter: only its lower-cased form is compared. */
  lemma LookupIgnoresQueryCase(pokedex: seq<RawRecord>, name: string)
    ensures Lookup(pokedex, name) == Lookup(pokedex, Lower(name))
  {
    LowerIdempotent(name);
  }

  /** A found Pokémon carries the record's identifier and name and the types
      its first two type names denote. */
  lemma LookupFoundFields(pokedex: seq<RawRecord>, name: string)
    requires Lookup(pokedex, name).Ok? && Lookup(pokedex, name).value.Some?
    ensures var poke := Lookup(pokedex, name).value.value;
      exists i | 0 <= i < |pokedex| ::
        pokedex[i].name == Lower(name) && poke.name == Lower(name) &&
        |pokedex[i].types| > 0 &&
        poke.id == pokedex[i].id &&
        poke.type1.Name() == Upper(pokedex[i].types[0]) &&
        (poke.type2.Some? <==> |pokedex[i].types| > 1)
  {
    var i := FirstMatch(pokedex, Lower(name)).value;
    assert ResolveRecord(pokedex[i]).Ok?;
  }

  /** The identifier clause never matches: a numeric query finds nothing,
      whatever the records' identifiers, unless some record's name is that
      same text. */
  lemma NumericQueryIgnoresId(pokedex: seq<RawRecord>, n: int)
    requires forall i | 0 <= i < |pokedex| :: pokedex[i].name != IntToDecimal(n)
    ensures Lookup(pokedex, IntToDecimal(n)) == Ok(None)
  {
    var s := IntToDecimal(n);
    assert forall i | 0 <= i < |s| :: !IsUpper(s[i]);
    assert Lower(s) == s;
  }
}
