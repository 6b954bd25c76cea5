/** The attribute universe of the lookup core: the seventeen Pokémon types of
    the third generation, their enumeration names and ordinals, and the fixed
    attack-versus-defence multiplier table indexed by those ordinals. */
module PokeTypes {
  import opened Text
  import opened Outcomes

  /** The seventeen real members of the `PokeType` enumeration, in ordinal order. */
  datatype PokeType =
    | Normal | Fighting | Flying | Poison | Ground | Rock | Bug | Ghost | Steel
    | Fire | Water | Grass | Electric | Psychic | Ice | Dragon | Dark
  {
    /** The member's value in the enumeration, used as the row and column index. */
    function Ordinal(): (n: nat)
      ensures n < TypeCount
    {
      match this
      case Normal => 0   case Fighting => 1  case Flying => 2    case Poison => 3
      case Ground => 4   case Rock => 5      case Bug => 6       case Ghost => 7
      case Steel => 8    case Fire => 9      case Water => 10    case Grass => 11
      case Electric => 12 case Psychic => 13 case Ice => 14      case Dragon => 15
      case Dark => 16
    }

    /** The member's name as the enumeration spells it (`PokeType.X.name`). */
    function Name(): string
    {
      match this
      case Normal => "NORMAL"     case Fighting => "FIGHTING" case Flying => "FLYING"
      case Poison => "POISON"     case Ground => "GROUND"     case Rock => "ROCK"
      case Bug => "BUG"           case Ghost => "GHOST"       case Steel => "STEEL"
      case Fire => "FIRE"         case Water => "WATER"       case Grass => "GRASS"
      case Electric => "ELECTRIC" case Psychic => "PSYCHIC"   case Ice => "ICE"
      case Dragon => "DRAGON"     case Dark => "DARK"
    }
  }

  const TypeCount: nat := 17

  /** Every member, listed in ordinal order. */
  const AllTypes: seq<PokeType> :=
    [Normal, Fighting, Flying, Poison, Ground, Rock, Bug, Ghost, Steel,
     Fire, Water, Grass, Electric, Psychic, Ice, Dragon, Dark]

  /** Attack type in rows, defending type in columns, both by ordinal. */
  const TypeChart: seq<seq<real>> := [
      // Normal attacking
      [1.0, 1.0, 1.0, 1.0, 1.0, 0.5, 1.0, 0.0, 0.5, 1.0, 1.0, 1.0, 1.0, 1.0, 1.0, 1.0, 1.0],
      // Fighting attacking
      [2.0, 1.0, 0.5, 0.5, 1.0, 2.0, 0.5, 0.0, 2.0, 1.0, 1.0, 1.0, 1.0, 0.5, 2.0, 1.0, 2.0],
      // Flying attacking
      [1.0, 2.0, 1.0, 1.0, 1.0, 0.5, 2.0, 1.0, 0.5, 1.0, 1.0, 2.0, 0.5, 1.0, 1.0, 1.0, 1.0],
      // Poison attacking
      [1.0, 1.0, 1.0, 0.5, 0.5, 0.5, 1.0, 0.5, 0.0, 1.0, 1.0, 2.0, 1.0, 1.0, 1.0, 1.0, 1.0],
      // Ground attacking
      [1.0, 1.0, 0.0, 2.0, 1.0, 2.0, 0.5, 1.0, 2.0, 2.0, 1.0, 0.5, 2.0, 1.0, 1.0, 1.0, 1.0],
      // Rock attacking
      [1.0, 0.5, 2.0, 1.0, 0.5, 1.0, 2.0, 1.0, 0.5, 2.0, 1.0, 1.0, 1.0, 1.0, 2.0, 1.0, 1.0],
      // Bug attacking
      [1.0, 0.5, 0.5, 0.5, 1.0, 1.0, 1.0, 0.5, 0.5, 0.5, 1.0, 2.0, 1.0, 2.0, 1.0, 1.0, 2.0],
      // Ghost attacking
      [0.0, 1.0, 1.0, 1.0, 1.0, 1.0, 1.0, 2.0, 0.5, 1.0, 1.0, 1.0, 1.0, 2.0, 1.0, 1.0, 0.5],
      // Steel attacking
      [1.0, 1.0, 1.0, 1.0, 1.0, 2.0, 1.0, 1.0, 0.5, 0.5, 0.5, 1.0, 0.5, 1.0, 2.0, 1.0, 1.0],
      // Fire attacking
      [1.0, 1.0, 1.0, 1.0, 1.0, 0.5, 2.0, 1.0, 2.0, 0.5, 0.5, 2.0, 1.0, 1.0, 2.0, 0.5, 1.0],
      // Water attacking
      [1.0, 1.0, 1.0, 1.0, 2.0, 2.0, 1.0, 1.0, 1.0, 2.0, 0.5, 0.5, 1.0, 1.0, 1.0, 0.5, 1.0],
      // Grass attacking
      [1.0, 1.0, 0.5, 0.5, 2.0, 2.0, 0.5, 1.0, 0.5, 0.5, 2.0, 0.5, 1.0, 1.0, 1.0, 0.5, 1.0],
      // Electric attacking
      [1.0, 1.0, 2.0, 1.0, 0.0, 1.0, 1.0, 1.0, 1.0, 1.0, 2.0, 0.5, 0.5, 1.0, 1.0, 0.5, 1.0],
      // Psychic attacking
      [1.0, 2.0, 1.0, 2.0, 1.0, 1.0, 1.0, 1.0, 0.5, 1.0, 1.0, 1.0, 1.0, 0.5, 1.0, 1.0, 0.0],
      // Ice attacking
      [1.0, 1.0, 2.0, 1.0, 2.0, 1.0, 1.0, 1.0, 0.5, 0.5, 0.5, 2.0, 1.0, 1.0, 0.5, 2.0, 1.0],
      // Dragon attacking
      [1.0, 1.0, 1.0, 1.0, 1.0, 1.0, 1.0, 1.0, 0.5, 1.0, 1.0, 1.0, 1.0, 1.0, 1.0, 2.0, 1.0],
      // Dark attacking
      [1.0, 0.5, 1.0, 1.0, 1.0, 1.0, 1.0, 2.0, 0.5, 1.0, 1.0, 1.0, 1.0, 2.0, 1.0, 1.0, 0.5]
    ]

  /** The only multipliers the chart uses: immune, resisted, neutral, super effective. */
  predicate IsChartValue(x: real)
  {
    x == 0.0 || x == 0.5 || x == 1.0 || x == 2.0
  }

  predicate ChartRowWellFormed(row: seq<real>)
  {
    |row| == TypeCount && forall j | 0 <= j < |row| :: IsChartValue(row[j])
  }

  // The chart's shape, checked a third at a time to keep each proof small.

  lemma FirstRowsWellFormed()
    ensures |TypeChart| == TypeCount
    ensures forall i | 0 <= i < 6 :: ChartRowWellFormed(TypeChart[i])
  {
  }

  lemma MiddleRowsWellFormed()
    ensures |TypeChart| == TypeCount
    ensures forall i | 6 <= i < 12 :: ChartRowWellFormed(TypeChart[i])
  {
  }

  lemma LastRowsWellFormed()
    ensures |TypeChart| == TypeCount
    ensures forall i | 12 <= i < TypeCount :: ChartRowWellFormed(TypeChart[i])
  {
  }

  /** The chart is square, one row and one column per ordinal, and holds only chart values. */
  lemma ChartWellFormed()
    ensures |TypeChart| == TypeCount
    ensures forall i | 0 <= i < |TypeChart| :: ChartRowWellFormed(TypeChart[i])
  {
    FirstRowsWellFormed();
    MiddleRowsWellFormed();
    LastRowsWellFormed();
  }

  /** `TYPE_CHART[attack.value][defend.value]`. */
  function Multiplier(attack: PokeType, defend: PokeType): (m: real)
    ensures IsChartValue(m)
  {
    ChartWellFormed();
    TypeChart[attack.Ordinal()][defend.Ordinal()]
  }

  /** Every member sits in `AllTypes` at its own ordinal. */
  lemma AllTypesByOrdinal()
    ensures |AllTypes| == TypeCount
    ensures forall i | 0 <= i < |AllTypes| :: AllTypes[i].Ordinal() == i
    ensures forall t: PokeType :: AllTypes[t.Ordinal()] == t
  {
  }

  /** The checks the program runs against its own chart on start-up. */
  lemma ChartReferenceValues()
    ensures Multiplier(Ghost, Normal) == 0.0
    ensures Multiplier(Normal, Ghost) == 0.0
    ensures Multiplier(Fighting, Normal) == 2.0
    ensures Multiplier(Dark, Ghost) == 2.0
    ensures Multiplier(Dark, Dark) == 0.5
    ensures Multiplier(Ice, Steel) == 0.5
  {
  }

  /** The defending types an attack type hits for double damage. */
  function SuperEffectiveAgainst(attack: PokeType): set<PokeType>
  {
    match attack
    case Normal => {}
    case Fighting => {Normal, Rock, Steel, Ice, Dark}
    case Flying => {Fighting, Bug, Grass}
    case Poison => {Grass}
    case Ground => {Poison, Rock, Steel, Fire, Electric}
    case Rock => {Flying, Bug, Fire, Ice}
    case Bug => {Grass, Psychic, Dark}
    case Ghost => {Ghost, Psychic}
    case Steel => {Rock, Ice}
    case Fire => {Bug, Steel, Grass, Ice}
    case Water => {Ground, Rock, Fire}
    case Grass => {Ground, Rock, Water}
    case Electric => {Flying, Water}
    case Psychic => {Fighting, Poison}
    case Ice => {Flying, Ground, Grass, Dragon}
    case Dragon => {Dragon}
    case Dark => {Ghost, Psychic}
  }

  /** The defending types that halve an attack type's damage. */
  function NotVeryEffectiveAgainst(attack: PokeType): set<PokeType>
  {
    match attack
    case Normal => {Rock, Steel}
    case Fighting => {Flying, Poison, Bug, Psychic}
    case Flying => {Rock, Steel, Electric}
    case Poison => {Poison, Ground, Rock, Ghost}
    case Ground => {Bug, Grass}
    case Rock => {Fighting, Ground, Steel}
    case Bug => {Fighting, Flying, Poison, Ghost, Steel, Fire}
    case Ghost => {Steel, Dark}
    case Steel => {Steel, Fire, Water, Electric}
    case Fire => {Rock, Fire, Water, Dragon}
    case Water => {Water, Grass, Dragon}
    case Grass => {Flying, Poison, Bug, Steel, Fire, Grass, Dragon}
    case Electric => {Grass, Electric, Dragon}
    case Psychic => {Steel, Psychic}
    case Ice => {Steel, Fire, Water, Ice}
    case Dragon => {Steel}
    case Dark => {Fighting, Steel, Dark}
  }

  /** The defending types immune to an attack type. */
  function NoEffectOn(attack: PokeType): set<PokeType>
  {
    match attack
    case Normal => {Ghost}
    case Fighting => {Ghost}
    case Flying => {}
    case Poison => {Steel}
    case Ground => {Flying}
    case Rock => {}
    case Bug => {}
    case Ghost => {Normal}
    case Steel => {}
    case Fire => {}
    case Water => {}
    case Grass => {}
    case Electric => {Ground}
    case Psychic => {Dark}
    case Ice => {}
    case Dragon => {}
    case Dark => {}
  }

  /** The chart read as three lists of matchups, everything else neutral. */
  function ListedMultiplier(attack: PokeType, defend: PokeType): real
  {
    if defend in NoEffectOn(attack) then 0.0
    else if defend in NotVeryEffectiveAgainst(attack) then 0.5
    else if defend in SuperEffectiveAgainst(attack) then 2.0
    else 1.0
  }

  /** No defending type is in two of an attack type's lists. */
  predicate ListsDisjointAt(attack: PokeType, defend: PokeType)
  {
    var inNone := defend in NoEffectOn(attack);
    var inHalf := defend in NotVeryEffectiveAgainst(attack);
    var inDouble := defend in SuperEffectiveAgainst(attack);
    !(inNone && inHalf) && !(inNone && inDouble) && !(inHalf && inDouble)
  }

  // One lemma per row of the chart keeps each proof small.

  lemma NormalRowMatchesLists(defend: PokeType)
    ensures Multiplier(Normal, defend) == ListedMultiplier(Normal, defend)
    ensures ListsDisjointAt(Normal, defend)
  {
  }

  lemma FightingRowMatchesLists(defend: PokeType)
    ensures Multiplier(Fighting, defend) == ListedMultiplier(Fighting, defend)
    ensures ListsDisjointAt(Fighting, defend)
  {
  }

  lemma FlyingRowMatchesLists(defend: PokeType)
    ensures Multiplier(Flying, defend) == ListedMultiplier(Flying, defend)
    ensures ListsDisjointAt(Flying, defend)
  {
  }

  lemma PoisonRowMatchesLists(defend: PokeType)
    ensures Multiplier(Poison, defend) == ListedMultiplier(Poison, defend)
    ensures ListsDisjointAt(Poison, defend)
  {
  }

  lemma GroundRowMatchesLists(defend: PokeType)
    ensures Multiplier(Ground, defend) == ListedMultiplier(Ground, defend)
    ensures ListsDisjointAt(Ground, defend)
  {
  }

  lemma RockRowMatchesLists(defend: PokeType)
    ensures Multiplier(Rock, defend) == ListedMultiplier(Rock, defend)
    ensures ListsDisjointAt(Rock, defend)
  {
  }

  lemma BugRowMatchesLists(defend: PokeType)
    ensures Multiplier(Bug, defend) == ListedMultiplier(Bug, defend)
    ensures ListsDisjointAt(Bug, defend)
  {
  }

  lemma GhostRowMatchesLists(defend: PokeType)
    ensures Multiplier(Ghost, defend) == ListedMultiplier(Ghost, defend)
    ensures ListsDisjointAt(Ghost, defend)
  {
  }

  lemma SteelRowMatchesLists(defend: PokeType)
    ensures Multiplier(Steel, defend) == ListedMultiplier(Steel, defend)
    ensures ListsDisjointAt(Steel, defend)
  {
  }

  lemma FireRowMatchesLists(defend: PokeType)
    ensures Multiplier(Fire, defend) == ListedMultiplier(Fire, defend)
    ensures ListsDisjointAt(Fire, defend)
  {
  }

  lemma WaterRowMatchesLists(defend: PokeType)
    ensures Multiplier(Water, defend) == ListedMultiplier(Water, defend)
    ensures ListsDisjointAt(Water, defend)
  {
  }

  lemma GrassRowMatchesLists(defend: PokeType)
    ensures Multiplier(Grass, defend) == ListedMultiplier(Grass, defend)
    ensures ListsDisjointAt(Grass, defend)
  {
  }

  lemma ElectricRowMatchesLists(defend: PokeType)
    ensures Multiplier(Electric, defend) == ListedMultiplier(Electric, defend)
    ensures ListsDisjointAt(Electric, defend)
  {
  }

  lemma PsychicRowMatchesLists(defend: PokeType)
    ensures Multiplier(Psychic, defend) == ListedMultiplier(Psychic, defend)
    ensures ListsDisjointAt(Psychic, defend)
  {
  }

  lemma IceRowMatchesLists(defend: PokeType)
    ensures Multiplier(Ice, defend) == ListedMultiplier(Ice, defend)
    ensures ListsDisjointAt(Ice, defend)
  {
  }

  lemma DragonRowMatchesLists(defend: PokeType)
    ensures Multiplier(Dragon, defend) == ListedMultiplier(Dragon, defend)
    ensures ListsDisjointAt(Dragon, defend)
  {
  }

  lemma DarkRowMatchesLists(defend: PokeType)
    ensures Multiplier(Dark, defend) == ListedMultiplier(Dark, defend)
    ensures ListsDisjointAt(Dark, defend)
  {
  }

  /** The table and the matchup lists agree on all 289 pairs, and no pair is
      in two lists. */
  lemma ChartMatchesLists(attack: PokeType, defend: PokeType)
    ensures Multiplier(attack, defend) == ListedMultiplier(attack, defend)
    ensures ListsDisjointAt(attack, defend)
  {
    match attack
    case Normal => NormalRowMatchesLists(defend);
    case Fighting => FightingRowMatchesLists(defend);
    case Flying => FlyingRowMatchesLists(defend);
    case Poison => PoisonRowMatchesLists(defend);
    case Ground => GroundRowMatchesLists(defend);
    case Rock => RockRowMatchesLists(defend);
    case Bug => BugRowMatchesLists(defend);
    case Ghost => GhostRowMatchesLists(defend);
    case Steel => SteelRowMatchesLists(defend);
    case Fire => FireRowMatchesLists(defend);
    case Water => WaterRowMatchesLists(defend);
    case Grass => GrassRowMatchesLists(defend);
    case Electric => ElectricRowMatchesLists(defend);
    case Psychic => PsychicRowMatchesLists(defend);
    case Ice => IceRowMatchesLists(defend);
    case Dragon => DragonRowMatchesLists(defend);
    case Dark => DarkRowMatchesLists(defend);
  }

  /** Each multiplier names its list: 0 for immunity, 0.5 for a resistance,
      2 for a weakness, 1 exactly when the pair is in no list. */
  lemma MultiplierClassified(attack: PokeType, defend: PokeType)
    ensures Multiplier(attack, defend) == 0.0 <==> defend in NoEffectOn(attack)
    ensures Multiplier(attack, defend) == 0.5 <==> defend in NotVeryEffectiveAgainst(attack)
    ensures Multiplier(attack, defend) == 2.0 <==> defend in SuperEffectiveAgainst(attack)
    ensures Multiplier(attack, defend) == 1.0 <==>
      defend !in NoEffectOn(attack) && defend !in NotVeryEffectiveAgainst(attack) &&
      defend !in SuperEffectiveAgainst(attack)
  {
    ChartMatchesLists(attack, defend);
  }

  /** `PokeType[key]`: the members by name, as the enumeration's name table holds them. */
  const MembersByName: map<string, PokeType> := map[
    "NORMAL" := Normal,
    "FIGHTING" := Fighting,
    "FLYING" := Flying,
    "POISON" := Poison,
    "GROUND" := Ground,
    "ROCK" := Rock,
    "BUG" := Bug,
    "GHOST" := Ghost,
    "STEEL" := Steel,
    "FIRE" := Fire,
    "WATER" := Water,
    "GRASS" := Grass,
    "ELECTRIC" := Electric,
    "PSYCHIC" := Psychic,
    "ICE" := Ice,
    "DRAGON" := Dragon,
    "DARK" := Dark
  ]

  /** Every member is in the name table under its own name. */
  lemma MembersByNameComplete()
    ensures forall t: PokeType :: t.Name() in MembersByName && MembersByName[t.Name()] == t
  {
  }

  /** The name table holds nothing but members under their own names. */
  lemma MembersByNameSound()
    ensures forall key | key in MembersByName :: MembersByName[key].Name() == key
  {
  }

  /** The name table holds exactly the seventeen members, each under its own name. */
  lemma MembersByNameExact()
    ensures forall t: PokeType :: t.Name() in MembersByName && MembersByName[t.Name()] == t
    ensures forall key | key in MembersByName :: MembersByName[key].Name() == key
  {
    MembersByNameComplete();
    MembersByNameSound();
  }

  /** `PokeType[name.upper()]`: the member of that name, or the `KeyError` the
      lookup raises; an unknown name is never replaced by a default member. */
  function TypeFromName(name: string): (r: Result<PokeType>)
    ensures r.Ok? <==> exists t: PokeType :: t.Name() == Upper(name)
    ensures r.Ok? ==> r.value.Name() == Upper(name)
    ensures r.Raised? ==> r.error == KeyError(Upper(name))
  {
    MembersByNameExact();
    var key := Upper(name);
    if key in MembersByName then Ok(MembersByName[key]) else Raised(KeyError(key))
  }

  /** Two members never share a name. */
  lemma NameInjective(s: PokeType, t: PokeType)
    ensures s.Name() == t.Name() ==> s == t
  {
  }

  /** Member names are written in upper-case letters only. */
  lemma NameIsUpper(t: PokeType)
    ensures forall i | 0 <= i < |t.Name()| :: IsUpper(t.Name()[i])
  {
  }

  /** The lower-case names the roster data uses resolve to their members. */
  lemma TypeFromLowerName(t: PokeType)
    ensures TypeFromName(Lower(t.Name())) == Ok(t)
  {
    var n := t.Name();
    NameIsUpper(t);
    UpperOfLower(n);
    MembersByNameExact();
  }

  /** Types introduced after this chart, such as fairy, are rejected. */
  lemma FairyIsUnknown()
    ensures TypeFromName("fairy") == Raised(KeyError("FAIRY"))
  {
  }
}
