/** The end of `check_builds` (check_drone_builds.py:84-93): the four buckets become one report,
    the most severe non-empty bucket winning in the order critical > warning > unknown > ok. */
module Aggregation {
  import opened Text
  import opened Nagios

  /** One evaluated repository: the bucket it went into and the text appended there. */
  datatype Placement = Placement(tier: Status, descriptor: string)

  /** The contents of one bucket: the descriptors placed in it, in the order they were placed. */
  function Descriptors(ps: seq<Placement>, tier: Status): seq<string>
  {
    if ps == [] then []
    else (if ps[0].tier == tier then [ps[0].descriptor] else []) + Descriptors(ps[1..], tier)
  }

  /** Placing more repositories only appends to the buckets: earlier descriptors keep their
      places. */
  lemma {:induction false} DescriptorsConcat(a: seq<Placement>, b: seq<Placement>, tier: Status)
    ensures Descriptors(a + b, tier) == Descriptors(a, tier) + Descriptors(b, tier)
  {
    if a == [] {
      assert a + b == b;
    } else {
      var head := if a[0].tier == tier then [a[0].descriptor] else [];
      assert (a + b)[0] == a[0];
      assert (a + b)[1..] == a[1..] + b;
      assert Descriptors(a + b, tier) == head + Descriptors(a[1..] + b, tier);
      DescriptorsConcat(a[1..], b, tier);
      assert head + (Descriptors(a[1..], tier) + Descriptors(b, tier))
          == (head + Descriptors(a[1..], tier)) + Descriptors(b, tier);
    }
  }

  /** Appending one placement extends exactly its own bucket. */
  lemma DescriptorsSnoc(ps: seq<Placement>, p: Placement)
    ensures Descriptors(ps + [p], Ok) == Descriptors(ps, Ok) + (if p.tier == Ok then [p.descriptor] else [])
    ensures Descriptors(ps + [p], Warning) == Descriptors(ps, Warning) + (if p.tier == Warning then [p.descriptor] else [])
    ensures Descriptors(ps + [p], Critical) == Descriptors(ps, Critical) + (if p.tier == Critical then [p.descriptor] else [])
    ensures Descriptors(ps + [p], Unknown) == Descriptors(ps, Unknown) + (if p.tier == Unknown then [p.descriptor] else [])
  {
    assert [p][1..] == [];
    DescriptorsConcat(ps, [p], Ok);
    DescriptorsConcat(ps, [p], Warning);
    DescriptorsConcat(ps, [p], Critical);
    DescriptorsConcat(ps, [p], Unknown);
  }

  /** A bucket is non-empty exactly when some repository was placed in it. */
  lemma {:induction false} DescriptorsNonEmpty(ps: seq<Placement>, tier: Status)
    ensures Descriptors(ps, tier) != [] <==> exists i :: 0 <= i < |ps| && ps[i].tier == tier
  {
    if ps != [] {
      DescriptorsNonEmpty(ps[1..], tier);
      if ps[0].tier != tier && Descriptors(ps, tier) == [] {
        forall i | 1 <= i < |ps| ensures ps[i].tier != tier {
          assert ps[1..][i - 1] == ps[i];
        }
      }
      if Descriptors(ps[1..], tier) != [] {
        var i :| 0 <= i < |ps[1..]| && ps[1..][i].tier == tier;
        assert ps[i + 1].tier == tier;
      }
    }
  }

  /** The text put before the joined descriptors of the winning bucket. */
  function Prefix(s: Status): string
  {
    match s
    case Critical => "Failing build(s): "
    case Warning => "Failing build(s): "
    case Unknown => "Unknown build status: "
    case Ok => ""
  }

  /** Lines 84-93 as written, over the four lists the loop filled. */
  function Aggregate(successful: seq<string>, warning: seq<string>, critical: seq<string>,
                     unknown: seq<string>): (r: Report)
    ensures r.status == Critical <==> critical != []
    ensures r.status == Warning <==> critical == [] && warning != []
    ensures r.status == Ok <==> critical == [] && warning == [] && unknown == [] && successful != []
    ensures r.status == Unknown <==> critical == [] && warning == [] && (unknown != [] || successful == [])
  {
    if critical != [] then Report(Critical, "Failing build(s): " + Join(critical, ", "))
    else if warning != [] then Report(Warning, "Failing build(s): " + Join(warning, ", "))
    else if unknown != [] then Report(Unknown, "Unknown build status: " + Join(unknown, ", "))
    else if successful != [] then Report(Ok, Join(successful, ", "))
    else Report(Unknown, "No repos/builds found")
  }

  /** The report for a run that placed `ps`, through the four buckets. */
  function Summarise(ps: seq<Placement>): Report
  {
    Aggregate(Descriptors(ps, Ok), Descriptors(ps, Warning), Descriptors(ps, Critical), Descriptors(ps, Unknown))
  }

  /** The severity order of the aggregation. It is not the exit-code order: UNKNOWN has the
      highest exit code but loses to WARNING and CRITICAL here. */
  function Severity(s: Status): nat
  {
    match s
    case Ok => 0
    case Unknown => 1
    case Warning => 2
    case Critical => 3
  }

  /** The most severe tier among the placements (a reference definition, independent of the
      buckets). */
  function Worst(ps: seq<Placement>): Status
    requires ps != []
  {
    if |ps| == 1 then ps[0].tier
    else
      var rest := Worst(ps[1..]);
      if Severity(ps[0].tier) >= Severity(rest) then ps[0].tier else rest
  }

  /** `Worst` is the tier of some placement and no placement is more severe. */
  lemma {:induction false} WorstIsMaximum(ps: seq<Placement>)
    requires ps != []
    ensures exists i :: 0 <= i < |ps| && ps[i].tier == Worst(ps)
    ensures forall i :: 0 <= i < |ps| ==> Severity(ps[i].tier) <= Severity(Worst(ps))
  {
    if |ps| == 1 {
      assert ps[0].tier == Worst(ps);
    } else {
      WorstIsMaximum(ps[1..]);
      var j :| 0 <= j < |ps[1..]| && ps[1..][j].tier == Worst(ps[1..]);
      assert ps[j + 1].tier == Worst(ps[1..]);
      if Severity(ps[0].tier) >= Severity(Worst(ps[1..])) {
        assert ps[0].tier == Worst(ps);
      } else {
        assert ps[j + 1].tier == Worst(ps);
      }
      forall i | 1 <= i < |ps| ensures Severity(ps[i].tier) <= Severity(Worst(ps)) {
        assert ps[i] == ps[1..][i - 1];
      }
    }
  }

  /** The aggregation picks the most severe tier met and reports all of that tier's descriptors,
      in the order they were placed and nothing from other tiers; a run that placed nothing is
      UNKNOWN with the fixed message. */
  lemma SummaryIsWorstTier(ps: seq<Placement>)
    ensures ps == [] ==> Summarise(ps) == Report(Unknown, "No repos/builds found")
    ensures ps != [] ==>
      Summarise(ps) == Report(Worst(ps), Prefix(Worst(ps)) + Join(Descriptors(ps, Worst(ps)), ", "))
  {
    if ps != [] {
      var w := Worst(ps);
      WorstIsMaximum(ps);
      DescriptorsNonEmpty(ps, w);
      DescriptorsNonEmpty(ps, Critical);
      DescriptorsNonEmpty(ps, Warning);
      DescriptorsNonEmpty(ps, Unknown);
      if Severity(w) < 3 {
        forall i | 0 <= i < |ps| ensures ps[i].tier != Critical {
          assert Severity(ps[i].tier) <= Severity(w);
        }
      }
      if Severity(w) < 2 {
        forall i | 0 <= i < |ps| ensures ps[i].tier != Warning {
          assert Severity(ps[i].tier) <= Severity(w);
        }
      }
      if Severity(w) < 1 {
        forall i | 0 <= i < |ps| ensures ps[i].tier != Unknown {
          assert Severity(ps[i].tier) <= Severity(w);
        }
      }
    }
  }

  /** A run with one repository in each tier, placed ok, critical, warning, unknown: the report
      is CRITICAL and names only the critical repository. */
  lemma MixedTiersExample()
    ensures Summarise([Placement(Ok, "a"), Placement(Critical, "b"), Placement(Warning, "c"),
                       Placement(Unknown, "d")])
      == Report(Critical, "Failing build(s): b")
  {
    var a, b, c, d := Placement(Ok, "a"), Placement(Critical, "b"), Placement(Warning, "c"), Placement(Unknown, "d");
    assert [a, b, c, d][1..] == [b, c, d] && [b, c, d][1..] == [c, d] && [c, d][1..] == [d] && [d][1..] == [];
    assert Descriptors([d], Critical) == [];
    assert Descriptors([c, d], Critical) == [];
    assert Descriptors([b, c, d], Critical) == ["b"];
    assert Descriptors([a, b, c, d], Critical) == ["b"];
  }

}
