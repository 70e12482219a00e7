/**
 * The battle session of streamlit_app.py: the session fields (user health,
 * opponent, opponent health, selected attack, battle_in_progress and the
 * creature selection) and the actions that change them (health set-up, a new
 * encounter, choosing an attack, a turn, the Max Potion, and the selection
 * widgets). Each action is specified by a step function on a value snapshot
 * of the session; the Session class performs it in place.
 */
module Battle {
  import opened Wrappers
  import opened GetData
  import opened Labels

  /** Every combatant fights at level 50 with damage modifier 1. */
  const Level: nat := 50
  const Modifier: nat := 1

  /** The slider offers the numbers 1..151. */
  const RosterSize: nat := 151

  // ---------------------------------------------------------------------------
  // Combatants and damage
  // ---------------------------------------------------------------------------

  /** The stats the battle reads: index 0 is HP, 1 Attack, 2 Defense. */
  predicate HasBattleStats(c: Creature)
  {
    |c.stats| >= 3
  }

  function Hp(c: Creature): nat
    requires HasBattleStats(c)
  {
    c.stats[0]
  }

  function AttackStat(c: Creature): nat
    requires HasBattleStats(c)
  {
    c.stats[1]
  }

  function DefenseStat(c: Creature): nat
    requires HasBattleStats(c)
  {
    c.stats[2]
  }

  /** An attack whose power and accuracy calculate_damage can take (a number or None, not 'N/A'). */
  predicate Usable(a: Attack)
  {
    a.power != NotAvailable && a.accuracy != NotAvailable
  }

  function AsInput(d: Detail): Option<nat>
    requires d != NotAvailable
  {
    if d.Value? then Some(d.n) else None
  }

  /** The damage `attacker` deals to `defender` with `attack` on the given roll. */
  function DamageBy(attacker: Creature, defender: Creature, attack: Attack, roll: nat): (damage: nat)
    requires HasBattleStats(attacker) && HasBattleStats(defender)
    requires Usable(attack) && 1 <= roll <= 100
    ensures roll > AccuracyOrHundred(AsInput(attack.accuracy)) ==> damage == 0
    ensures roll <= AccuracyOrHundred(AsInput(attack.accuracy)) ==>
              damage == Formula(Level, AttackStat(attacker), DefenseOrOne(DefenseStat(defender)),
                                PowerOrZero(AsInput(attack.power)), Modifier).Floor
  {
    CalculateDamage(Level, AttackStat(attacker), DefenseStat(defender),
                    AsInput(attack.power), AsInput(attack.accuracy), Modifier, roll)
  }

  /** Health after taking damage, clamped at 0: it never rises, and it is 0 exactly when the damage covers it. */
  function Strike(health: nat, damage: nat): (r: nat)
    ensures r <= health
    ensures r == 0 <==> damage >= health
    ensures r > 0 ==> health - r == damage
  {
    var left := health - damage;
    if left < 0 then 0 else left
  }

  /** The first attack with the given name (the `next(...)` over the attack list). */
  function FirstNamed(attacks: seq<Attack>, name: string): (r: Option<Attack>)
    ensures r.None? <==> forall i :: 0 <= i < |attacks| ==> attacks[i].name != name
    ensures r.Some? ==> exists i :: 0 <= i < |attacks| && attacks[i] == r.value && r.value.name == name &&
                                    forall j :: 0 <= j < i ==> attacks[j].name != name
  {
    if attacks == [] then None
    else if attacks[0].name == name then Some(attacks[0])
    else
      var r := FirstNamed(attacks[1..], name);
      if r.Some? then
        ghost var i :| 0 <= i < |attacks[1..]| && attacks[1..][i] == r.value && r.value.name == name &&
                       forall j :: 0 <= j < i ==> attacks[1..][j].name != name;
        assert attacks[i + 1] == r.value;
        r
      else
        r
  }

  // ---------------------------------------------------------------------------
  // The session as a value
  // ---------------------------------------------------------------------------

  datatype Snapshot = Snapshot(
    userHealth: Option<nat>,
    opponent: Option<Creature>,
    opponentHealth: Option<nat>,
    attackSelected: Option<Attack>,
    battleInProgress: bool,
    selectionNumber: nat,
    selectionName: string,
    selectionIndex: nat)

  /** The roster the selectbox lists; its labels parse back only if no name holds a newline. */
  predicate RosterReadable(names: seq<string>)
  {
    forall i :: 0 <= i < |names| ==> '\n' !in names[i]
  }

  /** The session before any action: nothing set, no battle, the first roster entry selected. */
  function Initial(names: seq<string>): Snapshot
    requires |names| > 0
  {
    Snapshot(None, None, None, None, false, 1, names[0], 0)
  }

  /** The opponent and its health are set together, and the health stays within the opponent's HP stat. */
  ghost predicate OpponentConsistent(s: Snapshot)
  {
    (s.opponent.Some? <==> s.opponentHealth.Some?) &&
    (s.opponent.Some? ==> HasBattleStats(s.opponent.value) && s.opponentHealth.value <= Hp(s.opponent.value))
  }

  /** The selection's number, index and name all denote the same roster entry. */
  ghost predicate SelectionConsistent(s: Snapshot, names: seq<string>)
  {
    1 <= s.selectionNumber <= |names| &&
    s.selectionIndex == s.selectionNumber - 1 &&
    s.selectionName == names[s.selectionIndex]
  }

  /** The user's health stays within the HP stat of the creature it fights with. */
  ghost predicate UserHealthBounded(s: Snapshot, user: Creature)
    requires HasBattleStats(user)
  {
    s.userHealth.Some? ==> s.userHealth.value <= Hp(user)
  }

  ghost predicate Inv(s: Snapshot, user: Creature, names: seq<string>)
    requires HasBattleStats(user)
  {
    OpponentConsistent(s) && SelectionConsistent(s, names) && UserHealthBounded(s, user)
  }

  lemma InitialInv(user: Creature, names: seq<string>)
    requires HasBattleStats(user) && |names| > 0
    ensures Inv(Initial(names), user, names)
    ensures !Initial(names).battleInProgress && Initial(names).opponent.None?
  {
  }

  // ---------------------------------------------------------------------------
  // The actions, as step functions
  // ---------------------------------------------------------------------------

  /** The user's health is taken from the HP stat only while it is still unset. */
  function InitHealthStep(s: Snapshot, user: Creature): (r: Snapshot)
    requires HasBattleStats(user)
    ensures s.userHealth.None? ==> r == s.(userHealth := Some(Hp(user)))
    ensures s.userHealth.Some? ==> r == s
  {
    if s.userHealth.None? then s.(userHealth := Some(Hp(user))) else s
  }

  /** The encounter runs when its button is pressed, or when a battle is on with no opponent. */
  predicate EncounterTriggered(s: Snapshot, pressed: bool)
  {
    pressed || (s.battleInProgress && s.opponent.None?)
  }

  /** A new encounter brings in `foe` at full health and starts the battle; the user side is untouched. */
  function EncounterStep(s: Snapshot, pressed: bool, foe: Creature): (r: Snapshot)
    requires HasBattleStats(foe)
    ensures EncounterTriggered(s, pressed) ==>
              r.opponent == Some(foe) && r.opponentHealth == Some(Hp(foe)) && r.battleInProgress
    ensures !EncounterTriggered(s, pressed) ==> r == s
    ensures r.userHealth == s.userHealth && r.attackSelected == s.attackSelected
    ensures r == s.(opponent := r.opponent, opponentHealth := r.opponentHealth, battleInProgress := r.battleInProgress)
  {
    if EncounterTriggered(s, pressed) then
      s.(opponent := Some(foe), opponentHealth := Some(Hp(foe)), battleInProgress := true)
    else s
  }

  /**
   * Choosing an attack by name happens only while an opponent is shown and the
   * selectbox gives a non-empty name; the selection becomes the first attack
   * of that name, or None when there is none.
   */
  function ChooseAttackStep(s: Snapshot, attacks: seq<Attack>, choice: Option<string>): (r: Snapshot)
    ensures s.opponent.None? || choice.None? || choice == Some("") ==> r == s
    ensures r.attackSelected.Some? && r.attackSelected != s.attackSelected ==>
              r.attackSelected.value in attacks && Some(r.attackSelected.value.name) == choice
    ensures r == s.(attackSelected := r.attackSelected)
    ensures s.opponent.Some? && choice.Some? && choice.value != "" ==>
              r.attackSelected == FirstNamed(attacks, choice.value)
    ensures (s.opponent.Some? && choice.Some? && choice.value != "" &&
             forall i :: 0 <= i < |attacks| ==> attacks[i].name != choice.value) ==> r.attackSelected.None?
  {
    if s.opponent.Some? && choice.Some? && choice.value != "" then
      s.(attackSelected := FirstNamed(attacks, choice.value))
    else s
  }

  /** The opponent's attack list for this turn. */
  function OpponentAttacks(s: Snapshot, catalog: Catalog): seq<Attack>
    requires s.opponent.Some?
  {
    LegalAttacks(s.opponent.value.moves, catalog)
  }

  /** What a turn needs from the session to run without a Python error. */
  predicate TurnBase(s: Snapshot, user: Creature, playerRoll: nat)
  {
    HasBattleStats(user) && 1 <= playerRoll <= 100 &&
    (s.opponent.Some? ==>
      HasBattleStats(s.opponent.value) && s.opponentHealth.Some? && s.userHealth.Some? &&
      s.attackSelected.Some? && Usable(s.attackSelected.value))
  }

  /** The opponent's health once the player's move has landed or missed. */
  function OpponentHealthAfterStrike(s: Snapshot, user: Creature, playerRoll: nat): nat
    requires TurnBase(s, user, playerRoll) && s.opponent.Some?
  {
    Strike(s.opponentHealth.value, DamageBy(user, s.opponent.value, s.attackSelected.value, playerRoll))
  }

  /** The opponent strikes back when it is still standing and has an attack. */
  predicate Retaliates(s: Snapshot, user: Creature, catalog: Catalog, playerRoll: nat)
    requires TurnBase(s, user, playerRoll) && s.opponent.Some?
    ensures Retaliates(s, user, catalog, playerRoll) <==>
              DamageBy(user, s.opponent.value, s.attackSelected.value, playerRoll) < s.opponentHealth.value &&
              OpponentAttacks(s, catalog) != []
  {
    OpponentHealthAfterStrike(s, user, playerRoll) > 0 && OpponentAttacks(s, catalog) != []
  }

  /** A turn's inputs: rolls in 1..100, and a usable opponent attack at `pick` whenever the opponent strikes back. */
  predicate TurnReady(s: Snapshot, user: Creature, catalog: Catalog, playerRoll: nat, pick: nat, opponentRoll: nat)
  {
    TurnBase(s, user, playerRoll) && 1 <= opponentRoll <= 100 &&
    (s.opponent.Some? && Retaliates(s, user, catalog, playerRoll) ==>
      pick < |OpponentAttacks(s, catalog)| && Usable(OpponentAttacks(s, catalog)[pick]))
  }

  /**
   * "Use Move": the player strikes first; the opponent strikes back with its
   * attack at `pick` only if it is still standing. Each health is clamped at
   * 0, and whoever ends a strike at 0 ends the battle. Without an opponent the
   * button is not shown and nothing happens.
   */
  function TurnStep(s: Snapshot, user: Creature, catalog: Catalog, playerRoll: nat, pick: nat, opponentRoll: nat)
    : (r: Snapshot)
    requires TurnReady(s, user, catalog, playerRoll, pick, opponentRoll)
    ensures s.opponent.None? ==> r == s
    ensures r.opponent == s.opponent && r.attackSelected == s.attackSelected
    ensures r.selectionNumber == s.selectionNumber && r.selectionName == s.selectionName
    ensures r.selectionIndex == s.selectionIndex
    ensures r.battleInProgress ==> s.battleInProgress
    ensures s.opponent.Some? ==> r.opponentHealth.Some? && r.opponentHealth.value <= s.opponentHealth.value
    ensures s.opponent.Some? && r.opponentHealth == Some(0) ==> !r.battleInProgress
    ensures s.opponent.Some? && !Retaliates(s, user, catalog, playerRoll) ==> r.userHealth == s.userHealth
    ensures s.userHealth.Some? ==> r.userHealth.Some? && r.userHealth.value <= s.userHealth.value
    ensures s.opponent.Some? && Retaliates(s, user, catalog, playerRoll) && r.userHealth == Some(0) ==>
              !r.battleInProgress
    ensures s.opponent.Some? ==> r.opponentHealth == Some(OpponentHealthAfterStrike(s, user, playerRoll))
    ensures s.opponent.Some? && Retaliates(s, user, catalog, playerRoll) ==>
              r.userHealth == Some(Strike(s.userHealth.value,
                                          DamageBy(s.opponent.value, user, OpponentAttacks(s, catalog)[pick], opponentRoll)))
    ensures s.opponent.Some? ==>
              (r.battleInProgress <==>
                 s.battleInProgress && r.opponentHealth != Some(0) &&
                 !(Retaliates(s, user, catalog, playerRoll) && r.userHealth == Some(0)))
  {
    if s.opponent.None? then s
    else
      var foe := s.opponent.value;
      var foeHealth := OpponentHealthAfterStrike(s, user, playerRoll);
      var struck := s.(opponentHealth := Some(foeHealth),
                       battleInProgress := if foeHealth == 0 then false else s.battleInProgress);
      if Retaliates(s, user, catalog, playerRoll) then
        var attack := OpponentAttacks(s, catalog)[pick];
        var userHealth := Strike(s.userHealth.value, DamageBy(foe, user, attack, opponentRoll));
        struck.(userHealth := Some(userHealth),
                battleInProgress := if userHealth == 0 then false else struck.battleInProgress)
      else
        struck
  }

  /**
   * The Max Potion is offered only while the user's health is exactly 0; using
   * it restores the HP stat and resumes the battle against the same opponent.
   */
  function PotionStep(s: Snapshot, user: Creature): (r: Snapshot)
    requires HasBattleStats(user)
    ensures s.userHealth == Some(0) ==> r.userHealth == Some(Hp(user)) && r.battleInProgress
    ensures s.userHealth != Some(0) ==> r == s
    ensures r.opponent == s.opponent && r.opponentHealth == s.opponentHealth
    ensures r == s.(userHealth := r.userHealth, battleInProgress := r.battleInProgress)
  {
    if s.userHealth == Some(0) then s.(userHealth := Some(Hp(user)), battleInProgress := true) else s
  }

  /** Point the selection at roster number n (1-based). */
  function Reselect(s: Snapshot, names: seq<string>, n: nat): (r: Snapshot)
    requires 1 <= n <= |names|
    ensures r.selectionNumber == n && SelectionConsistent(r, names)
    ensures r == s.(selectionNumber := n, selectionName := r.selectionName, selectionIndex := r.selectionIndex)
  {
    s.(selectionNumber := n, selectionName := names[n - 1], selectionIndex := n - 1)
  }

  /** What the selection widgets may hand over: a slider value in range and one of the listed options. */
  predicate SelectionReady(names: seq<string>, number: nat, option: string)
  {
    RosterReadable(names) && 1 <= number <= RosterSize && number <= |names| && option in Options(names)
  }

  /**
   * The selection widgets: a moved slider wins; otherwise an option whose
   * number differs from the current one selects the entry it labels. Only the
   * selection changes.
   */
  function SelectionStep(s: Snapshot, names: seq<string>, number: nat, option: string): (r: Snapshot)
    requires SelectionReady(names, number, option)
    ensures r == s.(selectionNumber := r.selectionNumber, selectionName := r.selectionName,
                    selectionIndex := r.selectionIndex)
    ensures r == s || (1 <= r.selectionNumber <= |names| && r == Reselect(s, names, r.selectionNumber))
    ensures number != s.selectionNumber ==> r == Reselect(s, names, number)
    ensures number == s.selectionNumber ==> ParseLabel(option) == Some(r.selectionNumber)
    ensures number == s.selectionNumber && ParseLabel(option) == Some(s.selectionNumber) ==> r == s
    ensures number == s.selectionNumber && ParseLabel(option) != Some(s.selectionNumber) ==>
              r.selectionIndex < |names| && Options(names)[r.selectionIndex] == option &&
              r.selectionName == names[r.selectionIndex]
  {
    if number != s.selectionNumber then
      Reselect(s, names, number)
    else
      OptionNumber(names, option);
      var id := ParseLabel(option).value;
      if id != s.selectionNumber then Reselect(s, names, id) else s
  }

  // ---------------------------------------------------------------------------
  // Runs of actions
  // ---------------------------------------------------------------------------

  datatype Action =
    | InitHealth
    | Select(number: nat, option: string)
    | Encounter(pressed: bool, foe: Creature)
    | ChooseAttack(catalog: Catalog, choice: Option<string>)
    | UseMove(catalog: Catalog, playerRoll: nat, pick: nat, opponentRoll: nat)
    | MaxPotion

  /** Whether the action can be taken from `s` (the widget offers it and the source raises no error). */
  predicate Enabled(s: Snapshot, user: Creature, names: seq<string>, a: Action)
  {
    match a
    case InitHealth => true
    case Select(number, option) => SelectionReady(names, number, option)
    case Encounter(_, foe) => HasBattleStats(foe)
    case ChooseAttack(_, _) => true
    case UseMove(catalog, playerRoll, pick, opponentRoll) => TurnReady(s, user, catalog, playerRoll, pick, opponentRoll)
    case MaxPotion => true
  }

  function Step(s: Snapshot, user: Creature, names: seq<string>, a: Action): Snapshot
    requires HasBattleStats(user) && Enabled(s, user, names, a)
  {
    match a
    case InitHealth => InitHealthStep(s, user)
    case Select(number, option) => SelectionStep(s, names, number, option)
    case Encounter(pressed, foe) => EncounterStep(s, pressed, foe)
    case ChooseAttack(catalog, choice) => ChooseAttackStep(s, LegalAttacks(user.moves, catalog), choice)
    case UseMove(catalog, playerRoll, pick, opponentRoll) => TurnStep(s, user, catalog, playerRoll, pick, opponentRoll)
    case MaxPotion => PotionStep(s, user)
  }

  /** Every action of the run is enabled in the state the previous ones leave. */
  ghost predicate Admissible(s: Snapshot, user: Creature, names: seq<string>, acts: seq<Action>)
    requires HasBattleStats(user)
    decreases |acts|
  {
    acts == [] ||
    (Enabled(s, user, names, acts[0]) && Admissible(Step(s, user, names, acts[0]), user, names, acts[1..]))
  }

  ghost function Run(s: Snapshot, user: Creature, names: seq<string>, acts: seq<Action>): Snapshot
    requires HasBattleStats(user) && Admissible(s, user, names, acts)
    decreases |acts|
  {
    if acts == [] then s else Run(Step(s, user, names, acts[0]), user, names, acts[1..])
  }

  /** Each action keeps both healths within their HP stats and the selection consistent. */
  lemma StepKeepsInv(s: Snapshot, user: Creature, names: seq<string>, a: Action)
    requires HasBattleStats(user) && Enabled(s, user, names, a) && Inv(s, user, names)
    ensures Inv(Step(s, user, names, a), user, names)
  {
    match a
    case InitHealth =>
      assert Step(s, user, names, a) == InitHealthStep(s, user);
    case Select(number, option) =>
      SelectionKeepsInv(s, user, names, number, option);
    case Encounter(pressed, foe) =>
      assert Step(s, user, names, a) == EncounterStep(s, pressed, foe);
    case ChooseAttack(catalog, choice) =>
      assert Step(s, user, names, a) == ChooseAttackStep(s, LegalAttacks(user.moves, catalog), choice);
    case UseMove(catalog, playerRoll, pick, opponentRoll) =>
      TurnKeepsInv(s, user, names, catalog, playerRoll, pick, opponentRoll);
    case MaxPotion =>
      assert Step(s, user, names, a) == PotionStep(s, user);
  }

  lemma SelectionKeepsInv(s: Snapshot, user: Creature, names: seq<string>, number: nat, option: string)
    requires HasBattleStats(user) && SelectionReady(names, number, option) && Inv(s, user, names)
    ensures Inv(SelectionStep(s, names, number, option), user, names)
  {
    var r := SelectionStep(s, names, number, option);
    if r != s {
      assert r == Reselect(s, names, r.selectionNumber);
    }
  }

  lemma TurnKeepsInv(s: Snapshot, user: Creature, names: seq<string>, catalog: Catalog,
                     playerRoll: nat, pick: nat, opponentRoll: nat)
    requires TurnReady(s, user, catalog, playerRoll, pick, opponentRoll) && Inv(s, user, names)
    ensures Inv(TurnStep(s, user, catalog, playerRoll, pick, opponentRoll), user, names)
  {
    var r := TurnStep(s, user, catalog, playerRoll, pick, opponentRoll);
    assert SelectionConsistent(r, names);
    assert UserHealthBounded(r, user);
    assert OpponentConsistent(r);
  }

  /** Whatever the sequence of actions, the invariant holds throughout a session with one user creature. */
  lemma {:induction false} RunKeepsInv(s: Snapshot, user: Creature, names: seq<string>, acts: seq<Action>)
    requires HasBattleStats(user) && Inv(s, user, names) && Admissible(s, user, names, acts)
    ensures Inv(Run(s, user, names, acts), user, names)
    decreases |acts|
  {
    if acts != [] {
      StepKeepsInv(s, user, names, acts[0]);
      RunKeepsInv(Step(s, user, names, acts[0]), user, names, acts[1..]);
    }
  }

  // ---------------------------------------------------------------------------
  // The session, updated in place
  // ---------------------------------------------------------------------------

  class Session {
    var userHealth: Option<nat>
    var opponent: Option<Creature>
    var opponentHealth: Option<nat>
    var attackSelected: Option<Attack>
    var battleInProgress: bool
    var selectionNumber: nat
    var selectionName: string
    var selectionIndex: nat

    function View(): Snapshot
      reads this
    {
      Snapshot(userHealth, opponent, opponentHealth, attackSelected, battleInProgress,
               selectionNumber, selectionName, selectionIndex)
    }

    /** The session defaults and the initial selection (the first roster name). */
    constructor (names: seq<string>)
      requires |names| > 0
      ensures View() == Initial(names)
    {
      userHealth, opponent, opponentHealth, attackSelected := None, None, None, None;
      battleInProgress := false;
      selectionNumber, selectionName, selectionIndex := 1, names[0], 0;
    }

    method InitUserHealth(user: Creature)
      requires HasBattleStats(user)
      modifies this
      ensures View() == InitHealthStep(old(View()), user)
    {
      if userHealth.None? {
        userHealth := Some(user.stats[0]);
      }
    }

    method NewEncounter(pressed: bool, foe: Creature)
      requires HasBattleStats(foe)
      modifies this
      ensures View() == EncounterStep(old(View()), pressed, foe)
    {
      if pressed || (battleInProgress && opponent.None?) {
        opponent := Some(foe);
        opponentHealth := Some(foe.stats[0]);
        battleInProgress := true;
      }
    }

    method ChooseAttack(user: Creature, catalog: Catalog, choice: Option<string>)
      modifies this
      ensures View() == ChooseAttackStep(old(View()), LegalAttacks(user.moves, catalog), choice)
    {
      if opponent.Some? {
        var attacks := Attacks(user.moves, catalog);
        if choice.Some? && choice.value != "" {
          attackSelected := FirstNamed(attacks, choice.value);
        }
      }
    }

    method UseMove(user: Creature, catalog: Catalog, playerRoll: nat, pick: nat, opponentRoll: nat)
      requires TurnReady(View(), user, catalog, playerRoll, pick, opponentRoll)
      modifies this
      ensures View() == TurnStep(old(View()), user, catalog, playerRoll, pick, opponentRoll)
    {
      if opponent.Some? {
        var foe := opponent.value;
        var damageToOpponent := DamageBy(user, foe, attackSelected.value, playerRoll);
        var health: int := opponentHealth.value;
        health := health - damageToOpponent;
        if health < 0 {
          health := 0;
        }
        opponentHealth := Some(health);
        if health == 0 {
          battleInProgress := false;
        }
        if health > 0 {
          var opponentAttacks := Attacks(foe.moves, catalog);
          if opponentAttacks != [] {
            var attack := opponentAttacks[pick];
            var damageToUser := DamageBy(foe, user, attack, opponentRoll);
            var left: int := userHealth.value;
            left := left - damageToUser;
            if left < 0 {
              left := 0;
            }
            userHealth := Some(left);
            if left == 0 {
              battleInProgress := false;
            }
          }
        }
      }
    }

    method UseMaxPotion(user: Creature)
      requires HasBattleStats(user)
      modifies this
      ensures View() == PotionStep(old(View()), user)
    {
      if userHealth == Some(0) {
        userHealth := Some(user.stats[0]);
        battleInProgress := true;
      }
    }

    method SetSelection(names: seq<string>, n: nat)
      requires 1 <= n <= |names|
      modifies this
      ensures View() == Reselect(old(View()), names, n)
    {
      selectionNumber := n;
      selectionName := names[n - 1];
      selectionIndex := n - 1;
    }

    /** The slider is read first; the option is read only when the slider did not change the selection. */
    method HandleSelection(names: seq<string>, number: nat, option: string)
      requires SelectionReady(names, number, option)
      modifies this
      ensures View() == SelectionStep(old(View()), names, number, option)
    {
      var inputChanged := false;
      if number != selectionNumber {
        SetSelection(names, number);
        inputChanged := true;
      }
      OptionNumber(names, option);
      var optionId := ParseLabel(option).value;
      if optionId != selectionNumber && !inputChanged {
        SetSelection(names, optionId);
      }
    }
  }
}
