/** The repair checklist card (components/RepairGuideCard.tsx): two sets of checked ids,
    one for steps and one for tools, each flipped by a toggle, and the completion
    percentage shown in the header. */
module RepairGuideCard {
  import opened Types

  /** The set after one toggle: `x` flips, every other element stays as it was. */
  function Toggle(s: set<string>, x: string): (r: set<string>)
    ensures x in r <==> x !in s
    ensures forall y :: y != x ==> (y in r <==> y in s)
  {
    if x in s then s - {x} else s + {x}
  }

  /** Toggling the same id twice restores the set. */
  lemma ToggleTwice(s: set<string>, x: string)
    ensures Toggle(Toggle(s, x), x) == s
  {
  }

  /** Math.round(c / n * 100) on exact rationals: the nearest integer, halves rounded up.
      None stands for NaN, the value when the guide has no steps. */
  function Progress(c: nat, n: nat): (p: Option<int>)
    ensures p.None? <==> n == 0
  {
    if n == 0 then None else Some((200 * c + n) / (2 * n))
  }

  /** A strict order between two multiples of k is the order of the factors. */
  lemma MulLtCancel(k: nat, x: int, y: int)
    requires k * x < k * y
    ensures x < y
  {
  }

  /** The percentage is the rounding of 100·c/n: within half a point of it, and an exact
      half goes up. */
  lemma ProgressRounds(c: nat, n: nat)
    requires n > 0
    ensures var p := Progress(c, n).value;
            2 * n * p <= 200 * c + n < 2 * n * (p + 1)
  {
  }

  /** With no more checked steps than steps the percentage lies in 0..100; it is 0 with
      nothing checked and 100 with everything checked. */
  lemma {:induction false} ProgressRange(c: nat, n: nat)
    requires n > 0 && c <= n
    ensures 0 <= Progress(c, n).value <= 100
    ensures c == 0 ==> Progress(c, n).value == 0
    ensures c == n ==> Progress(c, n).value == 100
  {
    var k := 2 * n;
    var p := Progress(c, n).value;
    ProgressRounds(c, n);
    assert k * p <= 200 * c + n < k * (p + 1);
    MulLtCancel(k, 0, p + 1);
    MulLtCancel(k, p, 101);
    if c == 0 {
      MulLtCancel(k, p, 1);
    }
    if c == n {
      MulLtCancel(k, 100, p + 1);
    }
  }

  /** More checked steps never show a smaller percentage. */
  lemma {:induction false} ProgressMonotone(c1: nat, c2: nat, n: nat)
    requires n > 0 && c1 <= c2
    ensures Progress(c1, n).value <= Progress(c2, n).value
  {
    var k := 2 * n;
    var a, b := Progress(c1, n).value, Progress(c2, n).value;
    ProgressRounds(c1, n);
    ProgressRounds(c2, n);
    MulLtCancel(k, a, b + 1);
  }

  /** The ids of a guide's steps. */
  function StepIds(steps: seq<RepairStep>): (ids: set<string>)
    ensures |ids| <= |steps|
    ensures forall i :: 0 <= i < |steps| ==> steps[i].id in ids
    ensures forall id :: id in ids ==> exists i :: 0 <= i < |steps| && steps[i].id == id
    decreases |steps|
  {
    if steps == [] then {}
    else
      var front := StepIds(steps[..|steps| - 1]);
      assert forall i :: 0 <= i < |steps| - 1 ==> steps[..|steps| - 1][i] == steps[i];
      front + {steps[|steps| - 1].id}
  }

  /** Subsets are no larger than their supersets. */
  lemma {:induction false} SubsetCard(a: set<string>, b: set<string>)
    requires a <= b
    ensures |a| <= |b|
    decreases |b|
  {
    if b != {} {
      var x :| x in b;
      SubsetCard(a - {x}, b - {x});
    }
  }

  /** The card of one guide and the ids checked on it. */
  class Checklist {
    const guide: RepairGuide
    var checkedSteps: set<string>
    var checkedTools: set<string>

    /** Only ids of the guide's own steps are ever checked. */
    ghost predicate Valid()
      reads this`checkedSteps
    {
      checkedSteps <= StepIds(guide.steps)
    }

    constructor (guide: RepairGuide)
      ensures this.guide == guide && checkedSteps == {} && checkedTools == {}
      ensures Valid()
    {
      this.guide := guide;
      checkedSteps := {};
      checkedTools := {};
    }

    /** toggleStep: copy the set, flip `id` in the copy, store it back. The card offers it
        for its own steps only. */
    method ToggleStep(id: string)
      requires Valid() && id in StepIds(guide.steps)
      modifies this`checkedSteps
      ensures Valid()
      ensures checkedSteps == Toggle(old(checkedSteps), id)
    {
      var newChecked := checkedSteps;
      if id in newChecked {
        newChecked := newChecked - {id};
      } else {
        newChecked := newChecked + {id};
      }
      checkedSteps := newChecked;
    }

    /** toggleTool: the same flip on the tool set. */
    method ToggleTool(tool: string)
      modifies this`checkedTools
      ensures checkedTools == Toggle(old(checkedTools), tool)
    {
      var newChecked := checkedTools;
      if tool in newChecked {
        newChecked := newChecked - {tool};
      } else {
        newChecked := newChecked + {tool};
      }
      checkedTools := newChecked;
    }

    /** The header percentage: None (NaN) for a guide without steps, otherwise between
        0 and 100: 0 with nothing checked, 100 with every step checked. */
    method ProgressPercent() returns (p: Option<int>)
      requires Valid()
      ensures p == Progress(|checkedSteps|, |guide.steps|)
      ensures p.None? <==> guide.steps == []
      ensures p.Some? ==> 0 <= p.value <= 100
      ensures p.Some? && checkedSteps == {} ==> p.value == 0
      ensures p.Some? && checkedSteps == StepIds(guide.steps) && |StepIds(guide.steps)| == |guide.steps| ==> p.value == 100
    {
      var ids := StepIds(guide.steps);
      SubsetCard(checkedSteps, ids);
      p := Progress(|checkedSteps|, |guide.steps|);
      if p.Some? {
        ProgressRange(|checkedSteps|, |guide.steps|);
      }
    }
  }
}
