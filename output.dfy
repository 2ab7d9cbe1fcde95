/** The printable record a balloon is turned into before it is rendered with
    the operator's template (`impl From<Balloon> for BalloonOutput`). */
module Output {
  import opened Prelude

  datatype BalloonOutput = BalloonOutput(
    problem: string,
    team: string,
    location: string,
    color: string,
    total: string,
    awards: string)

  /** `order` lists every key of `keys` exactly once: one of the orders in
      which a hash map may hand out its keys. */
  ghost predicate IsEnumeration(order: seq<string>, keys: set<string>)
  {
    && (forall k :: k in order <==> k in keys)
    && (forall i, j :: 0 <= i < j < |order| ==> order[i] != order[j])
  }

  /** `parts` glued together with `sep` between neighbours. */
  function Join(parts: seq<string>, sep: char): string
  {
    if |parts| == 0 then ""
    else if |parts| == 1 then parts[0]
    else parts[0] + [sep] + Join(parts[1..], sep)
  }

  /** `s` cut at every `sep`; the inverse of Join on pieces free of `sep`. */
  function Split(s: string, sep: char): (r: seq<string>)
    ensures |r| > 0
    decreases |s|
  {
    if sep in s then
      var i := FirstIndex(s, sep);
      [s[..i]] + Split(s[i + 1..], sep)
    else [s]
  }

  /** The conversion with the key order fixed: the location defaults to
      "unknown", the keys of `total` are joined with commas in `order`, and
      the identifier is dropped. */
  function ToOutput(b: Balloon, order: seq<string>): (r: BalloonOutput)
    requires IsEnumeration(order, b.total.Keys)
    ensures b.location.None? ==> r.location == "unknown"
    ensures b.location.Some? ==> r.location == b.location.value
    ensures r.problem == b.problem && r.team == b.team
    ensures r.color == b.color && r.awards == b.awards
    ensures b.total == map[] ==> r.total == ""
  {
    assert b.total == map[] ==> order == [] by {
      if order != [] { assert order[0] in order; }
    }
    BalloonOutput(
      b.problem,
      b.team,
      match b.location case Some(l) => l case None => "unknown",
      b.color,
      Join(order, ','),
      b.awards)
  }

  lemma {:induction false} SplitJoin(parts: seq<string>, sep: char)
    requires |parts| > 0
    requires forall k :: 0 <= k < |parts| ==> sep !in parts[k]
    ensures Split(Join(parts, sep), sep) == parts
  {
    if |parts| > 1 {
      var s := Join(parts, sep);
      var p := parts[0];
      var rest := Join(parts[1..], sep);
      assert s == p + [sep] + rest;
      assert s[|p|] == sep;
      var i := FirstIndex(s, sep);
      assert s[..|p|] == p;
      assert i == |p|;
      assert s[i + 1..] == rest;
      SplitJoin(parts[1..], sep);
    }
  }

  /** The total field lists the award categories: cut at the commas it gives
      back the keys in the map's order, each once, provided no category name
      holds a comma; an empty map gives the empty string. */
  lemma TotalListsKeys(b: Balloon, order: seq<string>)
    requires IsEnumeration(order, b.total.Keys)
    requires forall k :: k in b.total ==> ',' !in k
    ensures b.total == map[] ==> ToOutput(b, order).total == ""
    ensures b.total != map[] ==> Split(ToOutput(b, order).total, ',') == order
    ensures b.total != map[] ==> forall piece :: piece in Split(ToOutput(b, order).total, ',') <==> piece in b.total
  {
    if b.total != map[] {
      var k :| k in b.total;
      assert k in order;
      forall i | 0 <= i < |order| ensures ',' !in order[i] {
        assert order[i] in b.total.Keys;
      }
      SplitJoin(order, ',');
    }
  }

  /** The identifier never reaches the printout: balloons that differ only
      in it print alike. */
  lemma OutputIgnoresId(b: Balloon, id: nat, order: seq<string>)
    requires IsEnumeration(order, b.total.Keys)
    ensures ToOutput(b.(balloonid := id), order) == ToOutput(b, order)
  {
  }

  /** The keys of `m` in whatever order the map yields them. */
  method CollectKeys(m: map<string, string>) returns (order: seq<string>)
    ensures IsEnumeration(order, m.Keys)
  {
    var rest := m.Keys;
    order := [];
    while rest != {}
      invariant rest <= m.Keys
      invariant forall k :: k in order <==> k in m.Keys && k !in rest
      invariant forall i, j :: 0 <= i < j < |order| ==> order[i] != order[j]
      decreases rest
    {
      var k :| k in rest;
      order := order + [k];
      rest := rest - {k};
    }
  }

  /** `BalloonOutput::from`: the conversion with the key order the map
      happens to produce. */
  method From(b: Balloon) returns (r: BalloonOutput)
    ensures exists order :: IsEnumeration(order, b.total.Keys) && r == ToOutput(b, order)
  {
    var order := CollectKeys(b.total);
    r := ToOutput(b, order);
  }
}
