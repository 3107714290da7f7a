/** Java's `switch` statement over an `int`, with its case labels, its `default` label and
    fall-through, as data. The statements of a group are values of a type of the caller's
    choosing. */
module Switches {
  import opened Wrappers

  /** The labels of one statement group, whether `default:` is among them, the group's
      statements, and whether they end with `break`. */
  datatype CaseGroup<A> = CaseGroup(labels: seq<int>, isDefault: bool, body: seq<A>, breaks: bool)

  /** The first group, from `from` on, with `x` among its labels. */
  function FindLabel<A>(groups: seq<CaseGroup<A>>, x: int, from: nat): (r: Option<nat>)
    requires from <= |groups|
    decreases |groups| - from
    ensures r.Some? ==> from <= r.value < |groups| && x in groups[r.value].labels
    ensures r.Some? ==> forall j :: from <= j < r.value ==> x !in groups[j].labels
    ensures r.None? ==> forall j :: from <= j < |groups| ==> x !in groups[j].labels
  {
    if from == |groups| then None
    else if x in groups[from].labels then Some(from)
    else FindLabel(groups, x, from + 1)
  }

  /** The first group, from `from` on, labelled `default`. */
  function FindDefault<A>(groups: seq<CaseGroup<A>>, from: nat): (r: Option<nat>)
    requires from <= |groups|
    decreases |groups| - from
    ensures r.Some? ==> from <= r.value < |groups| && groups[r.value].isDefault
    ensures r.Some? ==> forall j :: from <= j < r.value ==> !groups[j].isDefault
    ensures r.None? ==> forall j :: from <= j < |groups| ==> !groups[j].isDefault
  {
    if from == |groups| then None
    else if groups[from].isDefault then Some(from)
    else FindDefault(groups, from + 1)
  }

  /** The group control enters for `x`: the one labelled `x`, otherwise the `default` group,
      otherwise none, and then the whole statement is skipped. */
  function EntryGroup<A>(groups: seq<CaseGroup<A>>, x: int): (r: Option<nat>)
    ensures r.Some? ==> r.value < |groups|
    ensures (exists j :: 0 <= j < |groups| && x in groups[j].labels) ==> r.Some? && x in groups[r.value].labels
    ensures (forall j :: 0 <= j < |groups| ==> x !in groups[j].labels) ==>
      (r.Some? <==> exists j :: 0 <= j < |groups| && groups[j].isDefault)
  {
    match FindLabel(groups, x, 0)
    case Some(i) => Some(i)
    case None => FindDefault(groups, 0)
  }

  /** The statements run from group `i` on: its body, then, unless it ends with `break`, the
      next group's, and so on to the end of the switch. */
  function FallThrough<A>(groups: seq<CaseGroup<A>>, i: nat): (r: seq<A>)
    requires i <= |groups|
    decreases |groups| - i
    ensures i < |groups| ==> groups[i].body <= r
    ensures i < |groups| && groups[i].breaks ==> r == groups[i].body
  {
    if i == |groups| then []
    else groups[i].body + (if groups[i].breaks then [] else FallThrough(groups, i + 1))
  }

  /** The statements a `switch (x)` over `groups` runs. */
  function Run<A>(groups: seq<CaseGroup<A>>, x: int): seq<A> {
    match EntryGroup(groups, x)
    case None => []
    case Some(i) => FallThrough(groups, i)
  }

  /** The value a local variable holds after a switch whose statements assign it: the last
      assignment, or `initial` when none ran. */
  function LastOr<A>(assignments: seq<A>, initial: A): A {
    if |assignments| == 0 then initial else assignments[|assignments| - 1]
  }

  /** Control enters the first group whose labels hold `x`. */
  lemma RunFromLabel<A>(groups: seq<CaseGroup<A>>, x: int, i: nat)
    requires i < |groups| && x in groups[i].labels
    requires forall j :: 0 <= j < i ==> x !in groups[j].labels
    ensures Run(groups, x) == FallThrough(groups, i)
  {
    var r := FindLabel(groups, x, 0);
    assert r.Some?;
    assert r.value == i;
  }

  /** When no label holds `x`, control enters the `default` group. */
  lemma RunFromDefault<A>(groups: seq<CaseGroup<A>>, x: int, i: nat)
    requires forall j :: 0 <= j < |groups| ==> x !in groups[j].labels
    requires i < |groups| && groups[i].isDefault
    requires forall j :: 0 <= j < i ==> !groups[j].isDefault
    ensures Run(groups, x) == FallThrough(groups, i)
  {
    assert FindLabel(groups, x, 0).None?;
    var d := FindDefault(groups, 0);
    assert d.Some?;
    assert d.value == i;
  }

  /** When no label holds `x` and there is no `default`, nothing runs. */
  lemma RunNothing<A>(groups: seq<CaseGroup<A>>, x: int)
    requires forall j :: 0 <= j < |groups| ==> x !in groups[j].labels
    requires forall j :: 0 <= j < |groups| ==> !groups[j].isDefault
    ensures Run(groups, x) == []
  {
    assert FindLabel(groups, x, 0).None?;
    assert FindDefault(groups, 0).None?;
  }
}
