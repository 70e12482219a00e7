/**
 * The data layer of the battle core (classes/get_data.py): the damage formula,
 * the shape of a move's details, and the filter that keeps a creature's
 * "red-blue" moves. Network requests are replaced by a catalog of the records
 * the move service would answer with.
 */
module GetData {
  import opened Wrappers

  /** A JSON value the move service returns for "power", "accuracy" or "pp". */
  datatype Json = JNum(n: nat) | JNull

  /** The JSON object a move URL answers with (only the keys the core reads). */
  type MoveRecord = map<string, Json>

  /** The answers of the move service, by URL; a URL that is absent is a failed request. */
  type Catalog = map<string, MoveRecord>

  /** One value of the tuple get_move_details returns: a number, Python's None, or the string 'N/A'. */
  datatype Detail = Value(n: nat) | Null | NotAvailable

  /** An entry of the attack list: {'name', 'power', 'accuracy', 'pp'}. */
  datatype Attack = Attack(name: string, power: Detail, accuracy: Detail, pp: Detail)

  /** One element of a creature's "moves" list: the move's name, its URL and the version groups it belongs to. */
  datatype MoveEntry = MoveEntry(name: string, url: string, versionGroups: seq<string>)

  /** A fetched creature: its number, name, base stats (HP, Attack, Defense, ...) and moves. */
  datatype Creature = Creature(id: nat, name: string, stats: seq<nat>, moves: seq<MoveEntry>)

  /** The only version group whose moves the simulator offers. */
  const VersionGroup: string := "red-blue"

  // ---------------------------------------------------------------------------
  // Move details
  // ---------------------------------------------------------------------------

  /** A request for move details: the catalog's record for the URL, or None when the request fails. */
  function Fetch(catalog: Catalog, url: string): Option<MoveRecord>
  {
    if url in catalog then Some(catalog[url]) else None
  }

  /** `data.get(key, 'N/A')`. */
  function Get(data: MoveRecord, key: string): Detail
  {
    if key !in data then NotAvailable
    else match data[key]
      case JNum(n) => Value(n)
      case JNull => Null
  }

  /** What one key of a fetched record reads as, 'N/A' when the fetch failed or the key is missing. */
  ghost predicate Reads(fetched: Option<MoveRecord>, key: string, d: Detail)
  {
    if fetched.None? || key !in fetched.value then d == NotAvailable
    else match fetched.value[key]
      case JNum(n) => d == Value(n)
      case JNull => d == Null
  }

  /**
   * The power, accuracy and pp of a move. A failed request (None) and an empty
   * record (falsy in Python) give 'N/A' three times; otherwise each key that is
   * missing gives 'N/A' on its own and each present key keeps its value.
   */
  function GetMoveDetails(fetched: Option<MoveRecord>): (r: (Detail, Detail, Detail))
    ensures Reads(fetched, "power", r.0)
    ensures Reads(fetched, "accuracy", r.1)
    ensures Reads(fetched, "pp", r.2)
    ensures fetched.None? ==> r == (NotAvailable, NotAvailable, NotAvailable)
  {
    if fetched.Some? && fetched.value != map[] then
      var data := fetched.value;
      (Get(data, "power"), Get(data, "accuracy"), Get(data, "pp"))
    else
      (NotAvailable, NotAvailable, NotAvailable)
  }

  // ---------------------------------------------------------------------------
  // The "red-blue" filter
  // ---------------------------------------------------------------------------

  /** The first index of `groups` naming `target` (the `next(...)` over version_group_details). */
  function FindVersionGroup(groups: seq<string>, target: string): (r: Option<nat>)
    ensures r.None? <==> target !in groups
    ensures r.Some? ==> r.value < |groups| && groups[r.value] == target
    ensures r.Some? ==> forall j :: 0 <= j < r.value ==> groups[j] != target
  {
    if |groups| == 0 then None
    else if groups[0] == target then Some(0)
    else match FindVersionGroup(groups[1..], target)
      case None => None
      case Some(i) => Some(i + 1)
  }

  /** A move is offered when one of its version-group entries is "red-blue". */
  predicate IsRedBlue(m: MoveEntry)
  {
    FindVersionGroup(m.versionGroups, VersionGroup).Some?
  }

  /** The attack entry built for a retained move: its own name and the details fetched from its URL. */
  function ToAttack(m: MoveEntry, catalog: Catalog): Attack
  {
    var details := GetMoveDetails(Fetch(catalog, m.url));
    Attack(m.name, details.0, details.1, details.2)
  }

  /** The attack list of a creature's moves, built from the last move backwards so that it follows the loop. */
  function LegalAttacks(moves: seq<MoveEntry>, catalog: Catalog): seq<Attack>
  {
    if moves == [] then []
    else
      var last := moves[|moves| - 1];
      LegalAttacks(moves[..|moves| - 1], catalog) + (if IsRedBlue(last) then [ToAttack(last, catalog)] else [])
  }

  /** The positions of the "red-blue" moves, ascending: exactly the legal positions, each once. */
  ghost function LegalIndices(moves: seq<MoveEntry>): (idx: seq<nat>)
    ensures forall k :: 0 <= k < |idx| ==> idx[k] < |moves| && IsRedBlue(moves[idx[k]])
    ensures forall k, l :: 0 <= k < l < |idx| ==> idx[k] < idx[l]
    ensures forall i :: 0 <= i < |moves| && IsRedBlue(moves[i]) ==> i in idx
  {
    if moves == [] then []
    else
      var n := |moves| - 1;
      LegalIndices(moves[..n]) + (if IsRedBlue(moves[n]) then [n] else [])
  }

  /**
   * The attack list holds exactly the "red-blue" moves, in their original order,
   * each carrying its own name and the details fetched for its own URL.
   */
  lemma {:induction false} LegalAttacksExactly(moves: seq<MoveEntry>, catalog: Catalog)
    ensures |LegalAttacks(moves, catalog)| == |LegalIndices(moves)|
    ensures forall k :: 0 <= k < |LegalIndices(moves)| ==>
              LegalAttacks(moves, catalog)[k] == ToAttack(moves[LegalIndices(moves)[k]], catalog)
  {
    if moves != [] {
      var n := |moves| - 1;
      LegalAttacksExactly(moves[..n], catalog);
      forall k | 0 <= k < |LegalIndices(moves[..n])|
        ensures moves[..n][LegalIndices(moves[..n])[k]] == moves[LegalIndices(moves[..n])[k]]
      {
      }
    }
  }

  /** `attacks`: the loop that appends an entry for every "red-blue" move, in order. */
  method Attacks(moves: seq<MoveEntry>, catalog: Catalog) returns (attacks: seq<Attack>)
    ensures attacks == LegalAttacks(moves, catalog)
  {
    attacks := [];
    for i := 0 to |moves|
      invariant attacks == LegalAttacks(moves[..i], catalog)
    {
      var move := moves[i];
      var versionGroupDetails := FindVersionGroup(move.versionGroups, VersionGroup);
      assert moves[..i + 1][..i] == moves[..i];
      if versionGroupDetails.Some? {
        var details := GetMoveDetails(Fetch(catalog, move.url));
        attacks := attacks + [Attack(move.name, details.0, details.1, details.2)];
      }
    }
    assert moves[..|moves|] == moves;
  }

  // ---------------------------------------------------------------------------
  // Damage
  // ---------------------------------------------------------------------------

  /** Absent power counts as 0. */
  function PowerOrZero(base: Option<nat>): (p: nat)
    ensures base.None? ==> p == 0
    ensures base.Some? ==> p == base.value
  {
    if base.None? then 0 else base.value
  }

  /** Absent accuracy counts as 100. */
  function AccuracyOrHundred(accuracy: Option<nat>): (a: nat)
    ensures accuracy.None? ==> a == 100
    ensures accuracy.Some? ==> a == accuracy.value
  {
    if accuracy.None? then 100 else accuracy.value
  }

  /** Zero defense counts as 1. */
  function DefenseOrOne(defense: nat): (d: nat)
    ensures d > 0
  {
    if defense == 0 then 1 else defense
  }

  /** The source's damage expression, evaluated with exact real division. */
  ghost function Formula(level: nat, attack: nat, defense: nat, base: nat, modifier: nat): (f: real)
    requires defense > 0
    ensures f >= 2.0 * (modifier as real)
  {
    var scale := ((2 * level + 10) as real) / 250.0;
    var ratio := (attack as real) / (defense as real);
    assert scale >= 0.0 && ratio >= 0.0;
    assert scale * ratio >= 0.0;
    assert scale * ratio * (base as real) >= 0.0;
    assert (scale * ratio * (base as real)) * (modifier as real) >= 0.0;
    (scale * ratio * (base as real) + 2.0) * (modifier as real)
  }

  /**
   * `calculate_damage`, with the random roll in 1..100 passed in. After the
   * coercions, a roll above the accuracy misses and deals 0; otherwise the
   * damage is the source's expression truncated to an integer.
   */
  function CalculateDamage(level: nat, attack: nat, defense: nat, base: Option<nat>, accuracy: Option<nat>,
                           modifier: nat, roll: nat): (damage: nat)
    requires 1 <= roll <= 100
    ensures roll > AccuracyOrHundred(accuracy) ==> damage == 0
    ensures roll <= AccuracyOrHundred(accuracy) ==>
              damage == Formula(level, attack, DefenseOrOne(defense), PowerOrZero(base), modifier).Floor
  {
    var power := PowerOrZero(base);
    var hitChance := AccuracyOrHundred(accuracy);
    var def := DefenseOrOne(defense);
    if roll <= hitChance then
      FormulaIsIntegerQuotient(level, attack, def, power, modifier);
      ((2 * level + 10) * attack * power + 500 * def) * modifier / (250 * def)
    else
      0
  }

  /** Floor of a quotient of naturals is their integer quotient. */
  lemma FloorOfQuotient(n: nat, q: nat)
    requires q > 0
    ensures ((n as real) / (q as real)).Floor == n / q
  {
    var d, m := n / q, n % q;
    assert n == d * q + m;
    assert (n as real) == (d as real) * (q as real) + (m as real);
    assert (n as real) / (q as real) == (d as real) + (m as real) / (q as real);
    assert 0.0 <= (m as real) / (q as real) < 1.0;
  }

  /** The source's real-valued expression truncates to the integer expression the model computes. */
  lemma FormulaIsIntegerQuotient(level: nat, attack: nat, defense: nat, base: nat, modifier: nat)
    requires defense > 0
    ensures Formula(level, attack, defense, base, modifier).Floor
            == ((2 * level + 10) * attack * base + 500 * defense) * modifier / (250 * defense)
  {
    var a, x, d, p, m := (2 * level + 10) as real, attack as real, defense as real, base as real, modifier as real;
    var num := ((2 * level + 10) * attack * base + 500 * defense) * modifier;
    assert (num as real) == (a * x * p + 500.0 * d) * m;
    assert (a / 250.0) * (x / d) * p == (a * x * p) / (250.0 * d);
    assert Formula(level, attack, defense, base, modifier) == (num as real) / ((250 * defense) as real);
    FloorOfQuotient(num, 250 * defense);
  }

  /** With no accuracy value every roll of 1..100 hits. */
  lemma AbsentAccuracyAlwaysHits(level: nat, attack: nat, defense: nat, base: Option<nat>, modifier: nat, roll: nat)
    requires 1 <= roll <= 100
    ensures CalculateDamage(level, attack, defense, base, None, modifier, roll)
            == Formula(level, attack, DefenseOrOne(defense), PowerOrZero(base), modifier).Floor
  {
  }

  /** Zero defense is treated exactly as defense 1. */
  lemma ZeroDefenseIsOne(level: nat, attack: nat, base: Option<nat>, accuracy: Option<nat>, modifier: nat, roll: nat)
    requires 1 <= roll <= 100
    ensures CalculateDamage(level, attack, 0, base, accuracy, modifier, roll)
            == CalculateDamage(level, attack, 1, base, accuracy, modifier, roll)
  {
  }

  /** A hit whose power is absent or 0, with modifier 1, deals exactly 2, whatever the stats. */
  lemma {:induction false} PowerlessHitDealsTwo(level: nat, attack: nat, defense: nat, base: Option<nat>,
                                                 accuracy: Option<nat>, roll: nat)
    requires PowerOrZero(base) == 0
    requires 1 <= roll <= AccuracyOrHundred(accuracy) && roll <= 100
    ensures CalculateDamage(level, attack, defense, base, accuracy, 1, roll) == 2
  {
    var def := DefenseOrOne(defense);
    assert ((2 * level + 10) * attack * 0 + 500 * def) * 1 == 2 * (250 * def);
  }

  /** The worked example: level 50, Attack and Defense 49, power 35 give 17 (17.4 truncated). */
  lemma WorkedExample()
    ensures CalculateDamage(50, 49, 49, Some(35), Some(100), 1, 1) == 17
    ensures Formula(50, 49, 49, 35, 1) == 17.4
  {
  }
}
