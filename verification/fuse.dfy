/** Folding each batch normalisation into the unit before it
    (`Darknet.fuse`). The arithmetic of the folding is not modelled: a
    folded pair becomes the record `FusedConvBn(conv, norm)`. Only the
    restructuring of the module list is. */
module Fusion {

  import opened Common
  import opened Units

  predicate IsNorm(u: Unit) {
    u.BatchNorm2d?
  }

  /** No unit of `units` is a batch normalisation. */
  predicate NormFree(units: seq<Unit>) {
    forall j :: 0 <= j < |units| ==> !IsNorm(units[j])
  }

  /** The position of the first batch normalisation, if any. */
  function FirstNorm(units: seq<Unit>): (r: Option<nat>)
    ensures r.None? <==> NormFree(units)
    ensures r.Some? ==> r.value < |units| && IsNorm(units[r.value]) && NormFree(units[..r.value])
  {
    if units == [] then None
    else if IsNorm(units[0]) then Some(0)
    else
      match FirstNorm(units[1..])
      case None => None
      case Some(i) =>
        assert units[..i + 1] == [units[0]] + units[1..][..i];
        Some(i + 1)
  }

  /** A sequential container after the pass: when its first normalisation
      sits at `i`, the unit at Python index `i - 1` (the last unit when `i`
      is 0) is folded with it and the units after `i` follow; everything
      before `i - 1` is dropped. Without a normalisation nothing changes. */
  function FuseUnits(units: seq<Unit>): seq<Unit> {
    match FirstNorm(units)
    case None => units
    case Some(i) =>
      var conv := units[PyIndex(|units|, i - 1).value];
      [FusedConvBn(conv, units[i])] + units[i + 1..]
  }

  /** Only sequential containers are rewritten. */
  function FuseModule(m: Module): Module {
    if m.Sequential? then Sequential(FuseUnits(m.units)) else m
  }

  /** The rewritten module list: same length, each entry rewritten on its own. */
  function FuseAll(ms: seq<Module>): (r: seq<Module>)
    ensures |r| == |ms|
    ensures forall k :: 0 <= k < |ms| ==> r[k] == FuseModule(ms[k])
  {
    seq(|ms|, k requires 0 <= k < |ms| => FuseModule(ms[k]))
  }

  /** `[conv, bn, rest...]` becomes `[fused, rest...]`. */
  lemma FusePair(units: seq<Unit>)
    requires |units| >= 2 && !IsNorm(units[0]) && IsNorm(units[1])
    ensures FuseUnits(units) == [FusedConvBn(units[0], units[1])] + units[2..]
  {
    assert units[1..][0] == units[1];
    assert FirstNorm(units[1..]) == Some(0);
  }

  /** A container without normalisation is left as it is. */
  lemma FuseNormFree(units: seq<Unit>)
    requires NormFree(units)
    ensures FuseUnits(units) == units
  {
  }

  /** The shape the builder gives its containers: a normalisation can only
      follow the first unit. */
  predicate NormAtMostSecond(units: seq<Unit>) {
    forall j :: 0 <= j < |units| && j != 1 ==> !IsNorm(units[j])
  }

  /** On such a container the pass leaves no normalisation behind, so a
      second pass changes nothing. */
  lemma FuseLeavesNoNorm(units: seq<Unit>)
    requires NormAtMostSecond(units)
    ensures NormFree(FuseUnits(units))
    ensures FuseUnits(FuseUnits(units)) == FuseUnits(units)
  {
    if NormFree(units) {
      FuseNormFree(units);
    } else {
      assert |units| >= 2 && IsNorm(units[1]);
      FusePair(units);
      var r := FuseUnits(units);
      assert forall j :: 1 <= j < |r| ==> r[j] == units[j + 1];
      assert NormFree(r);
      FuseNormFree(r);
    }
  }

  /** The first normalisation is the one no normalisation precedes. */
  lemma FirstNormAt(units: seq<Unit>, i: nat)
    requires i < |units| && IsNorm(units[i]) && NormFree(units[..i])
    ensures FirstNorm(units) == Some(i)
  {
    var f := FirstNorm(units);
    assert forall j :: 0 <= j < i ==> units[..i][j] == units[j];
    assert f.Some? ==> forall j :: 0 <= j < f.value ==> units[..f.value][j] == units[j];
  }

  /** The loop of the pass over one container: it stops at the first
      normalisation it meets. */
  method FuseSequential(units: seq<Unit>) returns (r: seq<Unit>)
    ensures r == FuseUnits(units)
  {
    r := units;
    for i := 0 to |units|
      invariant NormFree(units[..i])
    {
      if IsNorm(units[i]) {
        var conv := units[PyIndex(|units|, i - 1).value];
        FirstNormAt(units, i);
        r := [FusedConvBn(conv, units[i])] + units[i + 1..];
        return;
      }
      assert units[..i + 1] == units[..i] + [units[i]];
    }
    assert units[..|units|] == units;
  }

  /** One entry of the module list. */
  method FuseEntry(m: Module) returns (r: Module)
    ensures r == FuseModule(m)
  {
    r := m;
    if m.Sequential? {
      var units := FuseSequential(m.units);
      r := Sequential(units);
    }
  }
}
