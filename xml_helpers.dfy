/** SplunkXmlHelpers.GetParameterValue: the text of the single descendant
    `param` element whose `name` attribute equals the given name, or "" when
    the query throws. `Single(predicate)` (as the .NET Framework implements it)
    applies the predicate to every `param`; a `param` without a `name`
    attribute makes the predicate dereference null, and none or several
    matches make `Single` throw. Every exception is caught. */
module SplunkXmlHelpers {
  import opened Common
  import opened XmlTree

  /** Every param carries a name attribute, so the predicate never throws. */
  predicate AllNamed(ps: seq<XNode>) {
    forall p :: p in ps ==> Attribute(p, "name").Some?
  }

  /** The params whose name attribute equals `name`, in document order. */
  function Matching(ps: seq<XNode>, name: string): (r: seq<XNode>)
    ensures forall p :: p in r <==> p in ps && Attribute(p, "name") == Some(name)
    ensures |r| <= |ps|
  {
    if ps == [] then []
    else (if Attribute(ps[0], "name") == Some(name) then [ps[0]] else []) + Matching(ps[1..], name)
  }

  function GetParameterValue(stanza: XNode, name: string): (r: string)
    ensures var ps := Descendants(stanza, "param");
            AllNamed(ps) && |Matching(ps, name)| == 1 ==> r == Value(Matching(ps, name)[0])
    ensures var ps := Descendants(stanza, "param");
            !AllNamed(ps) || |Matching(ps, name)| != 1 ==> r == ""
  {
    var ps := Descendants(stanza, "param");
    if !AllNamed(ps) then ""
    else
      var ms := Matching(ps, name);
      if |ms| == 1 then Value(ms[0]) else ""
  }

  /** A non-empty result is always the text of a param that carries the
      requested name, and among the params there is no other such element. */
  lemma NonEmptyMeansUniqueMatch(stanza: XNode, name: string)
    ensures var r := GetParameterValue(stanza, name);
            var ps := Descendants(stanza, "param");
            r != "" ==> exists p :: p in ps && Attribute(p, "name") == Some(name) && Value(p) == r &&
                                    Matching(ps, name) == [p]
  {
    var ps := Descendants(stanza, "param");
    if GetParameterValue(stanza, name) != "" {
      var p := Matching(ps, name)[0];
      assert p in Matching(ps, name);
      assert Matching(ps, name) == [p];
    }
  }

  /** Two params with the requested name give "" even when their texts agree. */
  lemma {:induction false} DuplicateNamesGiveEmpty(stanza: XNode, name: string, i: nat, j: nat)
    requires i < j < |Descendants(stanza, "param")|
    requires Attribute(Descendants(stanza, "param")[i], "name") == Some(name)
    requires Attribute(Descendants(stanza, "param")[j], "name") == Some(name)
    ensures GetParameterValue(stanza, name) == ""
  {
    var ps := Descendants(stanza, "param");
    MatchingCountsOccurrences(ps, name, i, j);
  }

  lemma {:induction false} MatchingCountsOccurrences(ps: seq<XNode>, name: string, i: nat, j: nat)
    requires i < j < |ps|
    requires Attribute(ps[i], "name") == Some(name) && Attribute(ps[j], "name") == Some(name)
    ensures |Matching(ps, name)| >= 2
  {
    if i == 0 {
      assert ps[1..][j - 1] == ps[j];
      assert ps[j] in Matching(ps[1..], name);
    } else {
      assert ps[1..][i - 1] == ps[i] && ps[1..][j - 1] == ps[j];
      MatchingCountsOccurrences(ps[1..], name, i - 1, j - 1);
    }
  }
}
