/** The data-only assets of the game (UnitData, HeroData) and the part of a
    card on the board that the rules read (CardDisplay's stats). They carry
    no behaviour; the rules modules read their fields. */
module GameData {
  import opened Common

  datatype Tribe = None | Human | Undead | Beast | Dragon | Construct | Elemental

  datatype AbilityType = NoAbility | Battlecry | Deathrattle | Passive

  /** A unit asset; `tier` defaults to 1 and `cost` to 3 in the editor. */
  datatype UnitData = UnitData(
    id: string,
    unitName: string,
    tier: int,
    cost: int,
    baseAttack: int,
    baseHealth: int,
    tribe: Tribe,
    abilityType: AbilityType)

  datatype HeroBonusType = NoBonus | ExtraHealth | ExtraGold | StartingUnit

  datatype HeroData = HeroData(
    heroName: string,
    bonusType: HeroBonusType,
    bonusValue: int,
    startingUnit: Option<UnitData>)

  /** The fields of a board card that the rules read; `unitData` may be
      unset (null) on a card, and a board slot may hold no card at all. */
  datatype CardView = CardView(
    unitData: Option<UnitData>,
    currentAttack: int,
    currentHealth: int,
    isGolden: bool)
}
