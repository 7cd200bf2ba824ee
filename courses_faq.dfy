/**
 * The course FAQ accordion (src/components/courses/courses-faq.tsx): one `openIndex`
 * state cell, so at most one answer is shown at a time.
 */
module CoursesFaq {
  import opened Wrappers

  /** The number of questions in the FAQ list. */
  const ItemCount: nat := 6

  /** `toggleItem(index)`'s next state: close the open item, or open this one in place of any other. */
  function Toggle(openIndex: Option<int>, index: int): (r: Option<int>)
    ensures openIndex == Some(index) ==> r.None?
    ensures openIndex != Some(index) ==> r == Some(index)
  {
    if openIndex == Some(index) then None else Some(index)
  }

  /** Item i's answer is rendered exactly when `openIndex === i`. */
  predicate AnswerShown(openIndex: Option<int>, i: int)
  {
    openIndex == Some(i)
  }

  /** The state after clicking the items `clicks` in order. */
  function ToggleAll(openIndex: Option<int>, clicks: seq<int>): Option<int>
    decreases |clicks|
  {
    if clicks == [] then openIndex else ToggleAll(Toggle(openIndex, clicks[0]), clicks[1..])
  }

  /** Toggling the same item twice restores a closed accordion or that item; from another item it ends closed. */
  lemma ToggleTwice(openIndex: Option<int>, i: int)
    ensures openIndex.None? || openIndex == Some(i) ==> ToggleAll(openIndex, [i, i]) == openIndex
    ensures openIndex.Some? && openIndex.value != i ==> ToggleAll(openIndex, [i, i]).None?
  {
    var once := Toggle(openIndex, i);
    assert [i, i][0] == i && [i, i][1..] == [i];
    assert ToggleAll(openIndex, [i, i]) == ToggleAll(once, [i]);
    assert [i][0] == i && [i][1..] == [];
    assert ToggleAll(once, [i]) == ToggleAll(Toggle(once, i), []);
  }

  /** After any clicks, either nothing is open or the last item clicked is. */
  lemma {:induction false} LastClickDecides(openIndex: Option<int>, clicks: seq<int>)
    requires |clicks| >= 1
    ensures ToggleAll(openIndex, clicks).None? || ToggleAll(openIndex, clicks) == Some(clicks[|clicks| - 1])
    decreases |clicks|
  {
    if |clicks| > 1 {
      LastClickDecides(Toggle(openIndex, clicks[0]), clicks[1..]);
    }
  }

  /** Clicks on the rendered items keep the open index among the items. */
  lemma {:induction false} OpenIndexStaysInRange(openIndex: Option<int>, clicks: seq<int>)
    requires openIndex.Some? ==> 0 <= openIndex.value < ItemCount
    requires forall k :: 0 <= k < |clicks| ==> 0 <= clicks[k] < ItemCount
    ensures var r := ToggleAll(openIndex, clicks); r.Some? ==> 0 <= r.value < ItemCount
    decreases |clicks|
  {
    if clicks != [] {
      OpenIndexStaysInRange(Toggle(openIndex, clicks[0]), clicks[1..]);
    }
  }

  class Accordion {
    var openIndex: Option<int>

    /** At most one item is open, and it is one of the items. */
    predicate Valid()
      reads this
    {
      openIndex.Some? ==> 0 <= openIndex.value < ItemCount
    }

    /** Initially every answer is hidden. */
    constructor ()
      ensures Valid() && openIndex.None?
      ensures forall i :: !AnswerShown(openIndex, i)
    {
      openIndex := None;
    }

    /** The question button of item `index`. */
    method ToggleItem(index: int)
      requires Valid() && 0 <= index < ItemCount
      modifies this
      ensures Valid()
      ensures openIndex == Toggle(old(openIndex), index)
      ensures AnswerShown(openIndex, index) <==> !AnswerShown(old(openIndex), index)
      ensures forall j :: j != index ==> !AnswerShown(openIndex, j)
    {
      openIndex := if openIndex == Some(index) then None else Some(index);
    }
  }
}
