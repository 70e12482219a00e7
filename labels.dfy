/**
 * The creature selector of streamlit_app.py: option labels "Name (n)" built
 * from the roster, and the regular expression `.* \((\d+)\)` that reads the
 * number back out of the chosen label.
 */
module Labels {
  import opened Wrappers

  // ---------------------------------------------------------------------------
  // str.capitalize, on ASCII letters
  // ---------------------------------------------------------------------------

  function Upper(c: char): char
  {
    if 'a' <= c <= 'z' then (c as int - 'a' as int + 'A' as int) as char else c
  }

  function Lower(c: char): char
  {
    if 'A' <= c <= 'Z' then (c as int - 'A' as int + 'a' as int) as char else c
  }

  function LowerAll(s: string): (r: string)
    ensures |r| == |s|
    ensures forall k :: 0 <= k < |s| ==> r[k] == Lower(s[k])
  {
    if s == [] then [] else [Lower(s[0])] + LowerAll(s[1..])
  }

  /** First character upper-case, the rest lower-case; characters other than letters are kept. */
  function Capitalize(s: string): (r: string)
    ensures |r| == |s|
    ensures |s| > 0 ==> r[0] == Upper(s[0])
    ensures forall k :: 1 <= k < |s| ==> r[k] == Lower(s[k])
    ensures forall k :: 0 <= k < |s| ==> (r[k] == s[k] || ('a' <= r[k] <= 'z' || 'A' <= r[k] <= 'Z'))
    ensures forall k :: 0 <= k < |s| ==> (r[k] == '\n' <==> s[k] == '\n')
  {
    if s == [] then [] else [Upper(s[0])] + LowerAll(s[1..])
  }

  // ---------------------------------------------------------------------------
  // Decimal numerals
  // ---------------------------------------------------------------------------

  predicate IsDigit(c: char)
  {
    '0' <= c <= '9'
  }

  /** Python's `str(n)` for a natural number. */
  function NatToString(n: nat): (s: string)
    ensures |s| > 0
    ensures forall k :: 0 <= k < |s| ==> IsDigit(s[k])
    decreases n
  {
    if n < 10 then [('0' as int + n) as char]
    else NatToString(n / 10) + [('0' as int + n % 10) as char]
  }

  function Pow10(n: nat): (p: nat)
    ensures p >= 1
  {
    if n == 0 then 1 else 10 * Pow10(n - 1)
  }

  /** Python's `int(s)` on a run of ASCII digits (leading zeros allowed): below 10 to the numeral's length. */
  function DigitsValue(s: string): (v: nat)
    requires forall k :: 0 <= k < |s| ==> IsDigit(s[k])
    ensures v < Pow10(|s|)
  {
    if s == [] then 0
    else
      assert IsDigit(s[|s| - 1]);
      10 * DigitsValue(s[..|s| - 1]) + (s[|s| - 1] as int - '0' as int)
  }

  /** Reading a numeral back gives the number it was written from. */
  lemma {:induction false} DigitsRoundTrip(n: nat)
    ensures DigitsValue(NatToString(n)) == n
    decreases n
  {
    if n >= 10 {
      var s := NatToString(n);
      DigitsRoundTrip(n / 10);
      assert s[..|s| - 1] == NatToString(n / 10);
    }
  }

  // ---------------------------------------------------------------------------
  // Labels and the regular expression
  // ---------------------------------------------------------------------------

  /** The option label of the i-th roster name (0-based): "{Name} ({i+1})". */
  function Label(name: string, i: nat): string
  {
    Capitalize(name) + " (" + NatToString(i + 1) + ")"
  }

  /** The selectbox's option list. */
  function Options(names: seq<string>): (options: seq<string>)
    ensures |options| == |names|
    ensures forall i :: 0 <= i < |names| ==> options[i] == Label(names[i], i)
  {
    if names == [] then [] else Options(names[..|names| - 1]) + [Label(names[|names| - 1], |names| - 1)]
  }

  /** The number of characters `.` may cover: everything before the first newline. */
  function FirstLineLength(s: string): (n: nat)
    ensures n <= |s|
    ensures forall k :: 0 <= k < n ==> s[k] != '\n'
    ensures n < |s| ==> s[n] == '\n'
  {
    if s == [] || s[0] == '\n' then 0 else 1 + FirstLineLength(s[1..])
  }

  /** The length of the longest run of digits starting at `start`. */
  function DigitRun(s: string, start: nat): (n: nat)
    requires start <= |s|
    ensures start + n <= |s|
    ensures forall k :: start <= k < start + n ==> IsDigit(s[k])
    ensures start + n < |s| ==> !IsDigit(s[start + n])
    decreases |s| - start
  {
    if start == |s| || !IsDigit(s[start]) then 0 else 1 + DigitRun(s, start + 1)
  }

  /** Whether ` \((\d+)\)` matches at position k (the greedy `\d+` must end right before `)`). */
  predicate MatchAt(s: string, k: nat)
    ensures MatchAt(s, k) ==> k + 3 < |s| && s[k] == ' ' && s[k + 1] == '(' && IsDigit(s[k + 2])
  {
    k + 2 <= |s| && s[k] == ' ' && s[k + 1] == '(' &&
    var run := DigitRun(s, k + 2);
    run >= 1 && k + 2 + run < |s| && s[k + 2 + run] == ')'
  }

  /** No match starts after position j and at or before k. */
  ghost predicate Greatest(s: string, j: nat, k: nat)
  {
    forall i :: j < i <= k ==> !MatchAt(s, i)
  }

  /** The group read when `.*` has taken k characters, backtracking one character at a time. */
  function ParseFrom(s: string, k: nat): (r: Option<nat>)
    requires k <= |s|
    ensures MatchAt(s, k) ==> r == Some(GroupAt(s, k))
    ensures r.None? ==> !MatchAt(s, k)
  {
    if MatchAt(s, k) then
      Some(GroupAt(s, k))
    else if k == 0 then None
    else ParseFrom(s, k - 1)
  }

  /**
   * `int(re.match(r".* \((\d+)\)", s).group(1))`: the greedy `.*` covers as
   * much of the first line as it can, so the number read is that of the last
   * " (digits)" the first line allows. None when the pattern does not match.
   */
  function ParseLabel(s: string): Option<nat>
  {
    ParseFrom(s, FirstLineLength(s))
  }

  /** The group of the match that starts at j. */
  function GroupAt(s: string, j: nat): nat
    requires MatchAt(s, j)
  {
    DigitsValue(s[j + 2..j + 2 + DigitRun(s, j + 2)])
  }

  /** Backtracking from k fails exactly when no match starts at or before k. */
  lemma {:induction false} ParseFromFailsWithoutMatch(s: string, k: nat)
    requires k <= |s|
    ensures ParseFrom(s, k).None? <==> forall j :: 0 <= j <= k ==> !MatchAt(s, j)
    decreases k
  {
    if !MatchAt(s, k) && k > 0 {
      ParseFromFailsWithoutMatch(s, k - 1);
    }
  }

  /** Backtracking from k reads the group of the last match that starts at or before k. */
  lemma {:induction false} ParseFromTakesLastMatch(s: string, k: nat) returns (j: nat)
    requires k <= |s| && ParseFrom(s, k).Some?
    ensures j <= k && MatchAt(s, j) && Greatest(s, j, k) && ParseFrom(s, k).value == GroupAt(s, j)
    decreases k
  {
    if MatchAt(s, k) {
      j := k;
    } else {
      j := ParseFromTakesLastMatch(s, k - 1);
    }
  }

  /**
   * `re.match(r".* \((\d+)\)", s)`: it fails exactly when no " (digits)" starts
   * on the first line; otherwise its group is that of the last one there.
   */
  lemma ParseLabelFindsLastMatch(s: string)
    ensures ParseLabel(s).None? <==> forall j :: 0 <= j <= FirstLineLength(s) ==> !MatchAt(s, j)
    ensures ParseLabel(s).Some? ==>
              exists j :: 0 <= j <= FirstLineLength(s) && MatchAt(s, j) && Greatest(s, j, FirstLineLength(s)) &&
                          ParseLabel(s).value == GroupAt(s, j)
  {
    ParseFromFailsWithoutMatch(s, FirstLineLength(s));
    if ParseLabel(s).Some? {
      var j := ParseFromTakesLastMatch(s, FirstLineLength(s));
    }
  }

  /** Above the position of the label's own " (", no match can start. */
  lemma {:induction false} ParseSkipsTail(s: string, head: nat, k: nat)
    requires head <= k <= |s|
    requires forall j :: head < j < |s| ==> s[j] != ' '
    ensures ParseFrom(s, k) == ParseFrom(s, head)
    decreases k
  {
    if k > head {
      assert !MatchAt(s, k);
      ParseSkipsTail(s, head, k - 1);
    }
  }

  /** The selection round trip: the label of the i-th name parses back to i + 1. */
  lemma LabelRoundTrip(name: string, i: nat)
    requires '\n' !in name
    ensures ParseLabel(Label(name, i)) == Some(i + 1)
  {
    var c, d := Capitalize(name), NatToString(i + 1);
    var s := Label(name, i);
    assert s == c + " (" + d + ")";
    var head := |c|;
    forall k | 0 <= k < |s| ensures s[k] != '\n' {
      if k < head { assert s[k] == c[k]; assert name[k] != '\n'; }
    }
    assert FirstLineLength(s) == |s|;
    forall j | head < j < |s| ensures s[j] != ' ' {
      if j > head + 1 && j < |s| - 1 { assert s[j] == d[j - head - 2]; }
    }
    ParseSkipsTail(s, head, |s|);
    DigitRunOf(s, head + 2, d);
    assert MatchAt(s, head);
    assert s[head + 2..head + 2 + |d|] == d;
    DigitsRoundTrip(i + 1);
  }

  /** The greedy digit run over a numeral followed by a non-digit is that numeral. */
  lemma {:induction false} DigitRunOf(s: string, start: nat, d: string)
    requires start + |d| < |s|
    requires s[start..start + |d|] == d
    requires forall k :: 0 <= k < |d| ==> IsDigit(d[k])
    requires !IsDigit(s[start + |d|])
    ensures DigitRun(s, start) == |d|
    decreases |d|
  {
    if d != [] {
      assert IsDigit(s[start]) by { assert s[start] == d[0]; }
      assert s[start + 1..start + 1 + |d[1..]|] == d[1..];
      DigitRunOf(s, start + 1, d[1..]);
    }
  }

  /** An option chosen from the list parses to a roster number n, 1 <= n <= |names|, whose label it is. */
  lemma OptionNumber(names: seq<string>, option: string)
    requires forall i :: 0 <= i < |names| ==> '\n' !in names[i]
    requires option in Options(names)
    ensures ParseLabel(option).Some?
    ensures 1 <= ParseLabel(option).value <= |names|
    ensures Options(names)[ParseLabel(option).value - 1] == option
  {
    var options := Options(names);
    var i :| 0 <= i < |options| && options[i] == option;
    LabelRoundTrip(names[i], i);
  }
}
