/** The object key under which an upload is stored: the issue time in
    milliseconds, a dash, then the requested file name. */
module StorageKey {
  import opened Wrappers
  import Decimal

  const Separator: char := '-'

  /** The key for a file named `name` requested at `clock` milliseconds. */
  function Make(clock: nat, name: string): (key: string)
    ensures |key| == |Decimal.Render(clock)| + 1 + |name|
    ensures key[..|Decimal.Render(clock)|] == Decimal.Render(clock)
    ensures key[|Decimal.Render(clock)|] == Separator
    ensures key[|Decimal.Render(clock)| + 1..] == name
  {
    Decimal.Render(clock) + [Separator] + name
  }

  /** The position of the first occurrence of `c` in `s`, if any. */
  function FirstIndex(s: string, c: char): (r: Option<nat>)
    ensures r.Some? ==> r.value < |s| && s[r.value] == c
    ensures r.Some? ==> forall j :: 0 <= j < r.value ==> s[j] != c
    ensures r.None? <==> forall j :: 0 <= j < |s| ==> s[j] != c
    decreases |s|
  {
    if s == [] then None
    else if s[0] == c then Some(0)
    else match FirstIndex(s[1..], c)
      case None => None
      case Some(i) => Some(i + 1)
  }

  /** Reads a key back into its timestamp and file name: the timestamp is the
      digits before the first dash, the name everything after it. */
  function Split(key: string): (r: Option<(nat, string)>)
  {
    match FirstIndex(key, Separator)
    case None => None
    case Some(i) =>
      if i == 0 || !Decimal.AllDigits(key[..i]) then None
      else Some((Decimal.Parse(key[..i]), key[i + 1..]))
  }

  /** Split inverts Make: a key determines the time and name it was made from,
      whatever dashes the name itself contains. */
  lemma SplitMake(clock: nat, name: string)
    ensures Split(Make(clock, name)) == Some((clock, name))
  {
    var digits := Decimal.Render(clock);
    var key := Make(clock, name);
    assert key[..|digits|] == digits;
    var i := FirstIndex(key, Separator);
    assert i.Some?;
    assert i.value == |digits|;
    Decimal.ParseRender(clock);
  }

  /** Two keys are equal only when both the time and the name agree. */
  lemma MakeInjective(clock1: nat, name1: string, clock2: nat, name2: string)
    ensures Make(clock1, name1) == Make(clock2, name2) <==> clock1 == clock2 && name1 == name2
  {
    if Make(clock1, name1) == Make(clock2, name2) {
      SplitMake(clock1, name1);
      SplitMake(clock2, name2);
    }
  }
}
