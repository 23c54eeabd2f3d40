/** The artist line of the now-playing payload: artist names joined with ", " in the order the
    provider lists them, and the split that recovers them. */
module ArtistNames {
  import opened Options

  const SEPARATOR: string := ", "

  /** The separator ", " occurs in `s` at position `j`. */
  predicate SeparatorAt(s: string, j: int) {
    0 <= j && j + 1 < |s| && s[j] == ',' && s[j + 1] == ' '
  }

  predicate NoSeparator(s: string) {
    forall j :: 0 <= j < |s| ==> !SeparatorAt(s, j)
  }

  /** Python's `", ".join(names)`. */
  function Join(names: seq<string>): string {
    if names == [] then ""
    else if |names| == 1 then names[0]
    else names[0] + SEPARATOR + Join(names[1..])
  }

  /** The position of the first separator in `s`, if any. */
  function FindSeparator(s: string): (r: Option<nat>)
    ensures r.Some? ==> SeparatorAt(s, r.value) && forall j :: 0 <= j < r.value ==> !SeparatorAt(s, j)
    ensures r.None? <==> NoSeparator(s)
  {
    if |s| < 2 then None
    else if s[0] == ',' && s[1] == ' ' then Some(0)
    else
      match FindSeparator(s[1..])
      case None =>
        assert forall j :: SeparatorAt(s, j) ==> j == 0 || SeparatorAt(s[1..], j - 1);
        None
      case Some(k) =>
        assert forall j :: 1 <= j <= k ==> (SeparatorAt(s, j) <==> SeparatorAt(s[1..], j - 1));
        assert SeparatorAt(s, k + 1);
        Some(k + 1)
  }

  /** Python's `s.split(", ")`: the pieces between separators, `[""]` for the empty string. */
  function Split(s: string): seq<string>
    decreases |s|
  {
    match FindSeparator(s)
    case None => [s]
    case Some(k) => [s[..k]] + Split(s[k + 2..])
  }

  /** In `a + ", " + t`, when `a` holds no separator, the first separator is the one after `a`:
      a ',' ending `a` is followed by ',' and not by a space. */
  lemma FirstSeparatorAfter(a: string, t: string)
    requires NoSeparator(a)
    ensures FindSeparator(a + SEPARATOR + t) == Some(|a|)
  {
    var s := a + SEPARATOR + t;
    assert SeparatorAt(s, |a|);
    forall j | 0 <= j < |a| ensures !SeparatorAt(s, j) {
      if j + 1 < |a| { assert !SeparatorAt(a, j); }
    }
  }

  /** Round trip: splitting the artist line at ", " gives back the provider's names, in order,
      when there is at least one name and none of them contains ", ". */
  lemma {:induction false} SplitJoin(names: seq<string>)
    requires |names| > 0
    requires forall i :: 0 <= i < |names| ==> NoSeparator(names[i])
    ensures Split(Join(names)) == names
  {
    if |names| > 1 {
      var t := Join(names[1..]);
      FirstSeparatorAfter(names[0], t);
      var s := names[0] + SEPARATOR + t;
      assert s[..|names[0]|] == names[0];
      assert s[|names[0]| + 2..] == t;
      SplitJoin(names[1..]);
      assert names == [names[0]] + names[1..];
    }
  }

  /** Two artists yield "first, second". */
  lemma JoinTwo(a: string, b: string)
    ensures Join([a, b]) == a + ", " + b
  {
  }
}
