# Pokémon battle simulator — battle core in Dafny

This project models the battle core of a browser-based Pokémon battle
simulator for the 151 creatures of the first generation. It covers two parts.

- **The data layer** (`classes/get_data.py`), module `GetData` in `get_data.dfy`:
  - `calculate_damage`: the simplified damage formula with its coercions. Absent power counts as 0, absent accuracy as 100, and zero defense as 1. A roll above the accuracy misses.
  - `attacks`: the loop that keeps a creature's moves tagged with the `"red-blue"` version group, in order.
  - `get_move_details`: the `(power, accuracy, pp)` triple, with `'N/A'` wherever a value is missing.
- **The battle session** (`streamlit_app.py`), modules `Labels` (`labels.dfy`) and `Battle` (`battle.dfy`):
  - the session fields: user health, opponent, opponent health, selected attack, `battle_in_progress`, and the creature selection;
  - the actions that change them: health set-up, a wild encounter, choosing an attack, "Use Move", the Max Potion, and the slider/selectbox selection. Selection includes the `"Name (n)"` option labels and the regular expression that reads the number back out of a label.

The integer damage formula `((2L+10)·A·P + 500·D)·M div (250·D)` is proved
equal to the floor of the source's real-valued expression (`Formula`, with
exact real division).

Each session action is written twice:
- a step function on a `Snapshot` value (`InitHealthStep`, `EncounterStep`, `ChooseAttackStep`, `TurnStep`, `PotionStep`, `SelectionStep`);
- a method of the `Session` class that updates the fields in place, as the source's session state is updated, and whose postcondition is that step function.

`RunKeepsInv` proves an invariant for every admissible sequence of actions:
- both healths stay within `[0, HP stat]`;
- the opponent and its health are set together;
- the selection's number, index and name agree.

Randomness is an input:
- the hit roll in 1..100;
- the index of the opponent's move.

Fetched data is also an input:
- the creatures;
- a catalog of move records by URL, where a missing URL is a failed request.

Two behaviours of the code that a reader might not expect, which the model keeps:
- "Use Move" is offered whenever an opponent exists (`streamlit_app.py:110`). It is not gated on `battle_in_progress`, so a turn after a faint still runs. An attack on an opponent at 0 leaves it at 0 and again clears `battle_in_progress`.
- The Max Potion sets `battle_in_progress` even when the opponent has fainted.

## Model

| member | source | states |
|---|---|---|
| `GetData.GetMoveDetails` | classes/get_data.py:126-132 | A failed request gives `'N/A'` three times. Otherwise each key reads as its number or None, and as `'N/A'` when missing. An empty record (falsy) agrees with the per-key defaults. |
| `GetData.FindVersionGroup` | classes/get_data.py:146 | Returns the first index of `"red-blue"`. None exactly when no version-group entry has that name. |
| `GetData.LegalIndices` | classes/get_data.py:144-152 | The positions of the red-blue moves, strictly ascending. Every red-blue position appears, and only those. |
| `GetData.LegalAttacksExactly` | classes/get_data.py:144-152 | The attack list has one entry per red-blue move, in the original order. Each entry has that move's own name and the details fetched from its own URL. |
| `GetData.Attacks` | classes/get_data.py:144-152 | The appending loop returns exactly `LegalAttacks` of the move list. |
| `GetData.CalculateDamage` | classes/get_data.py:155-181 | With the roll in 1..100: a roll above the accuracy (None counts as 100) gives 0. Otherwise the damage is the floor of the real-valued formula, with power None counted as 0 and defense 0 counted as 1. |
| `GetData.FormulaIsIntegerQuotient` | classes/get_data.py:178 | The real expression `(((2L+10)/250)*(A/D)*P + 2)*M` truncates to `((2L+10)*A*P + 500*D)*M div (250*D)`. |
| `GetData.FloorOfQuotient` | classes/get_data.py:178 | For naturals, `int()` of a real quotient equals integer division. |
| `GetData.AbsentAccuracyAlwaysHits` | classes/get_data.py:172-176 | With accuracy None, every roll in 1..100 hits. |
| `GetData.ZeroDefenseIsOne` | classes/get_data.py:174-175 | Defense 0 gives the same damage as defense 1, for every roll. |
| `GetData.PowerlessHitDealsTwo` | classes/get_data.py:170-178 | A hit whose power is None or 0, with modifier 1, deals exactly 2, whatever the stats. |
| `GetData.WorkedExample` | classes/get_data.py:178 | Level 50, Attack and Defense 49, power 35: the formula is 17.4 and the damage 17. |
| `GetData.LegalAttacks` | classes/get_data.py:144-152 | The specification of the `attacks` loop: the list built from the last move backwards. What it holds is stated by `LegalAttacksExactly`. |
| `GetData.PowerOrZero` | classes/get_data.py:170-171 | Power None counts as 0; a given power is kept. |
| `GetData.AccuracyOrHundred` | classes/get_data.py:172-173 | Accuracy None counts as 100; a given accuracy is kept. |
| `GetData.Formula` | classes/get_data.py:178 | The source's damage expression with exact real division. It is never below `2 * modifier`. |
| `GetData.DefenseOrOne` | classes/get_data.py:174-175 | The coerced defense is always positive, so the formula never divides by zero. |
| `Labels.Capitalize` | streamlit_app.py:44 | `str.capitalize` (ASCII): the first character is upper-cased and every later one lower-cased. The length is kept, a changed position holds a letter, and no newline is added or removed. |
| `Labels.NatToString` | streamlit_app.py:44 | `str(n)` is a non-empty run of decimal digits. |
| `Labels.DigitsRoundTrip` | streamlit_app.py:78 | `int(str(n)) == n`. |
| `Labels.Options` | streamlit_app.py:44 | One option per roster name. Option i is `"{Name} ({i+1})"`. |
| `Labels.FirstLineLength` | streamlit_app.py:78 | The reach of `.`: all characters before the first newline. |
| `Labels.DigitRun` | streamlit_app.py:78 | The greedy `\d+`: the maximal digit run from a position. |
| `Labels.DigitsValue` | streamlit_app.py:78 | `int()` of a run of ASCII digits. The value is below 10 to the numeral's length. |
| `Labels.Label` | streamlit_app.py:44 | The option text `"{Name} ({i+1})"`. What parsing it gives back is stated by `LabelRoundTrip`. |
| `Labels.MatchAt` | streamlit_app.py:78 | ` \((\d+)\)` matches at position k: a space, `(`, a non-empty digit run, then `)`. |
| `Labels.ParseFrom` | streamlit_app.py:78 | Backtracking `.*` from k characters: a match starting at k wins, and failure means none starts at k. |
| `Labels.ParseLabel` | streamlit_app.py:78 | `re.match(r".* \((\d+)\)", s)` with the greedy `.*` starting at the end of the first line. What it returns is stated by `ParseLabelFindsLastMatch`. |
| `Labels.GroupAt` | streamlit_app.py:78 | `int(group(1))` for the match starting at j: the value of the digit run after the `(`. `ParseFromTakesLastMatch` states which match that is. |
| `Labels.ParseFromFailsWithoutMatch` | streamlit_app.py:78 | Backtracking from k fails exactly when no match starts at or before k. |
| `Labels.ParseFromTakesLastMatch` | streamlit_app.py:78 | On success, backtracking from k reads the group of the last match starting at or before k. |
| `Labels.ParseLabelFindsLastMatch` | streamlit_app.py:78 | `re.match(r".* \((\d+)\)", s)` fails (so `.group` would raise) exactly when no " (digits)" starts on the first line. Otherwise `int(group(1))` is the number of the last one there. |
| `Labels.LabelRoundTrip` | streamlit_app.py:78 | For a name with no newline, `re.match(r".* \((\d+)\)", ...)` on the label of entry i reads back i+1. |
| `Labels.OptionNumber` | streamlit_app.py:78-82 | Every listed option parses to a number n in `1..len(names)`. Option n-1 is that very label, so `names[n-1]` is the creature it shows. |
| `Battle.Strike` | streamlit_app.py:143-145 | Health after damage never rises. It is never negative, because it is clamped at 0. It is 0 exactly when the damage covers it, and otherwise it drops by exactly the damage. |
| `Battle.FirstNamed` | streamlit_app.py:131 | The selected attack is the first one with the chosen name. None exactly when no attack has that name. |
| `Battle.DamageBy` | streamlit_app.py:142-163 | One strike at level 50 with modifier 1: the attacker's Attack stat (`stats[1]`) against the defender's Defense stat (`stats[2]`). A miss deals 0 and a hit deals the floor of the formula. |
| `Battle.Retaliates` | streamlit_app.py:159-161 | The opponent strikes back exactly when the player's damage is below its health and its attack list is non-empty. |
| `Battle.Reselect` | streamlit_app.py:71-73 | Selecting number n sets name `names[n-1]` and index n-1, so the selection is consistent. Only the selection changes. |
| `Battle.InitialInv` | streamlit_app.py:15-30 | The initial session has no opponent and no battle, and it satisfies the session invariant. |
| `Battle.InitHealthStep` | streamlit_app.py:88-89 | User health is set to the HP stat (`stats[0]`) only while it is unset. Nothing else changes. |
| `Battle.EncounterStep` | streamlit_app.py:103-107 | On the button, or when a battle is on without an opponent: the opponent is the fetched creature, its health is its HP stat, and `battle_in_progress` is true. Otherwise nothing changes. No other field is ever touched. |
| `Battle.ChooseAttackStep` | streamlit_app.py:127-132 | With an opponent shown and a non-empty name, the selection becomes `FirstNamed` of that name: the first attack with that name, or None when no attack has it. Otherwise nothing changes. A new selection is a listed attack with that name. No other field changes. |
| `Battle.TurnStep` | streamlit_app.py:138-176 | Player first, then opponent. The opponent's health becomes its old health minus the player's damage, clamped at 0. When the opponent retaliates, the user's health becomes its old health minus the picked attack's damage, clamped at 0. Without retaliation the user's health is unchanged. `battle_in_progress` stays as it was unless the opponent ends at 0 or the retaliation leaves the user at 0; in either case it becomes false. Both healths only fall. The opponent, the selected attack and the selection stay as they were. |
| `Battle.PotionStep` | streamlit_app.py:183-188 | At user health exactly 0: health goes back to the HP stat and `battle_in_progress` becomes true. At any other health: no change. No field other than user health and `battle_in_progress` is ever touched. |
| `Battle.SelectionStep` | streamlit_app.py:67-84 | Only the selection changes. A moved slider selects that number. An unmoved slider with an option that parses to the current number changes nothing. Otherwise the selection ends at the number parsed from the option, and a differing option selects the entry whose label it is, with `selection_name = names[n-1]`. |
| `Battle.StepKeepsInv` | streamlit_app.py:88-188 | Every enabled action keeps these invariants: healths within `[0, HP]`, opponent and opponent health set together, selection number/index/name consistent. |
| `Battle.SelectionKeepsInv` | streamlit_app.py:67-84 | The selection widgets keep the session invariant. |
| `Battle.TurnKeepsInv` | streamlit_app.py:138-176 | A turn keeps the session invariant. |
| `Battle.RunKeepsInv` | streamlit_app.py:67-188 | Any admissible sequence of actions with one user creature keeps the session invariant. |
| `Battle.Session.constructor` | streamlit_app.py:15-58 | Session defaults: everything None, no battle, selection number 1 / index 0 / first roster name. |
| `Battle.Session.InitUserHealth` | streamlit_app.py:88-89 | Updates the fields as `InitHealthStep`. |
| `Battle.Session.NewEncounter` | streamlit_app.py:103-107 | Updates the fields as `EncounterStep`. |
| `Battle.Session.ChooseAttack` | streamlit_app.py:127-132 | Builds the user's attack list with `Attacks` and updates the fields as `ChooseAttackStep`. |
| `Battle.Session.UseMove` | streamlit_app.py:138-176 | The in-place `-=` and clamping of both healths and the `battle_in_progress` updates. The result is exactly `TurnStep`. |
| `Battle.Session.UseMaxPotion` | streamlit_app.py:183-188 | Updates the fields as `PotionStep`. |
| `Battle.Session.SetSelection` | streamlit_app.py:70-73 | Sets selection number n, name `names[n-1]` and index n-1. |
| `Battle.Session.HandleSelection` | streamlit_app.py:67-84 | The slider check, then the option check guarded by `input_changed`. The result is exactly `SelectionStep`. |

## Left out

- Network requests are inputs, not modelled. This covers `fetch_data`, `get_pokemon_data`, `get_random_pokemon_name` and `get_all_pokemon_names`. Fetched creatures, the roster names and a catalog of move records by URL are given as inputs. A failed creature fetch (Python then raises on `None['stats']`) is excluded by taking the fetched creature as given.
- Randomness is an input: `random.randint(1, 100)` is the roll parameter, and `random.choice` is the opponent's move index `pick`.
- Rendering is out of scope: `display_pokemon_data`, every `st.*` widget/column/write call, and `classes/plot_charts.py`. The re-render of the widgets after a selection change is also left out. Each button press is one method call.
- `@st.cache_resource` / `@st.cache_data` persistence is not modelled. The session is one object.
- The session keys `user_pokemon_name` and `user_pokemon_number` are initialised but never read by the core, so they are not modelled.
- Floating point is not modelled: the damage uses exact rational arithmetic. For some boundary inputs, IEEE rounding could truncate one lower than the exact floor.
- Battle.TurnStep: requires the selected attack, and the opponent's picked attack when it retaliates, to have power and accuracy that are a number or None. In the source, a missing selection or an `'N/A'` accuracy raises a `TypeError` (`classes/get_data.py:176`). An `'N/A'` power raises only on a hit (line 178); on a miss, line 181 returns 0 without reading it. So this precondition also excludes a missed strike with an `'N/A'` power, which the source completes with 0 damage.
- Battle.Session.UseMove: has the same precondition as `TurnStep`.
- GetData.CalculateDamage: takes non-negative stats, power, accuracy and modifier. For negative inputs, Python's truncation toward zero is not modelled.
- Labels.Capitalize: handles ASCII letters only. Python's Unicode case mapping is not modelled.
- Labels.ParseLabel: reads ASCII digits only. Python's `\d` also matches other Unicode decimal digits.
- Battle.RunKeepsInv: bounds user health by the HP stat of one fixed user creature. In the source, changing the selection re-fetches the user creature but keeps the old health. The health can then exceed the new creature's HP stat until the Max Potion resets it.
- Battle.SelectionReady: requires every roster name to be free of newlines, which holds for the real roster. A newline in a name would stop `.` and break the label round trip.
