/** The textual form of a vector (its String method). The digits Go prints
    for one float are a parameter, `sprint`; only the structure around them
    is modelled. */
module Text {
  import opened Numerics
  import opened Vectors

  /** How one component is printed: a positive component below the
      tolerance prints as "0", every other one as `sprint` prints it. */
  function Token(x: real, sprint: real -> string): string
  {
    if x < Tolerance && x > 0.0 then "0" else sprint(x)
  }

  /** The tokens of s separated by single spaces. */
  function Joined(s: seq<real>, sprint: real -> string): string
    requires |s| > 0
  {
    if |s| == 1 then Token(s[0], sprint)
    else Joined(s[..|s| - 1], sprint) + " " + Token(s[|s| - 1], sprint)
  }

  /** What the String loop accumulates: every token followed by a space,
      so at least one character per component, the last a space. */
  function Terms(s: seq<real>, sprint: real -> string): (str: string)
    ensures |str| >= |s|
    ensures s != [] ==> str[|str| - 1] == ' '
  {
    if s == [] then "" else Terms(s[..|s| - 1], sprint) + Token(s[|s| - 1], sprint) + " "
  }

  /** The loop's output is the joined tokens plus one trailing space. */
  lemma {:induction false} TermsAreJoinedThenSpace(s: seq<real>, sprint: real -> string)
    requires |s| > 0
    ensures Terms(s, sprint) == Joined(s, sprint) + " "
  {
    if |s| > 1 {
      TermsAreJoinedThenSpace(s[..|s| - 1], sprint);
    } else {
      assert s[..0] == [];
    }
  }

  /** String as written: the accumulated text loses its last character,
      which for a non-nil empty vector is a slice at index -1, a panic
      (None here). */
  function StringAsWritten(v: Option<seq<real>>, sprint: real -> string): Option<string>
  {
    match v
    case None => Some("[]")
    case Some(s) =>
      var str := Terms(s, sprint);
      if |str| == 0 then None else Some("[" + str[..|str| - 1] + "]")
  }

  /** String with the empty vector printed as "[]", like the nil one. */
  function Render(v: Option<seq<real>>, sprint: real -> string): string
  {
    match v
    case None => "[]"
    case Some(s) => if s == [] then "[]" else "[" + Joined(s, sprint) + "]"
  }

  /** The code as written panics on the non-nil empty vector and agrees
      with Render on every other input. */
  lemma StringAsWrittenPanicsOnlyOnEmpty(v: Option<seq<real>>, sprint: real -> string)
    ensures StringAsWritten(v, sprint).None? <==> v == Some([])
    ensures v != Some([]) ==> StringAsWritten(v, sprint) == Some(Render(v, sprint))
  {
    if v.Some? && v.value != [] {
      TermsAreJoinedThenSpace(v.value, sprint);
    }
  }

  /** The rendering is bracketed; nil and empty vectors are exactly "[]". */
  lemma RenderIsBracketed(v: Option<seq<real>>, sprint: real -> string)
    ensures var r := Render(v, sprint); |r| >= 2 && r[0] == '[' && r[|r| - 1] == ']'
    ensures v == None || v == Some([]) ==> Render(v, sprint) == "[]"
  {
  }

  /** Tiny positive components are suppressed; tiny negative ones are not. */
  lemma TokenSuppressesOnlyTinyPositives(x: real, sprint: real -> string)
    ensures 0.0 < x < Tolerance ==> Token(x, sprint) == "0"
    ensures x <= 0.0 || Tolerance <= x ==> Token(x, sprint) == sprint(x)
  {
  }

  /** When no printed number contains a space, the rendering of n components
      holds exactly n - 1 spaces: one between each pair of neighbours. */
  lemma {:induction false} JoinedSeparatesBySingleSpaces(s: seq<real>, sprint: real -> string)
    requires |s| > 0
    requires forall x :: ' ' !in sprint(x)
    ensures multiset(Joined(s, sprint))[' '] == |s| - 1
  {
    var last := Token(s[|s| - 1], sprint);
    assert ' ' !in last by {
      if !(s[|s| - 1] < Tolerance && s[|s| - 1] > 0.0) {
        assert last == sprint(s[|s| - 1]);
      }
    }
    assert multiset(last)[' '] == 0;
    if |s| > 1 {
      JoinedSeparatesBySingleSpaces(s[..|s| - 1], sprint);
      var init := Joined(s[..|s| - 1], sprint);
      assert Joined(s, sprint) == init + " " + last;
      assert multiset(init + " " + last) == multiset(init) + multiset(" ") + multiset(last);
    }
  }

  lemma RenderExample(sprint: real -> string)
    ensures Render(Some([0.000000001, -0.000000001, 1.0]), sprint)
      == "[0 " + sprint(-0.000000001) + " " + sprint(1.0) + "]"
  {
    var s := [0.000000001, -0.000000001, 1.0];
    assert s[..2][..1] == [0.000000001];
    assert s[..2] == [0.000000001, -0.000000001];
    assert Joined(s[..2][..1], sprint) == "0";
    assert Joined(s[..2], sprint) == "0 " + sprint(-0.000000001);
    assert Joined(s, sprint) == "0 " + sprint(-0.000000001) + " " + sprint(1.0);
  }
}
