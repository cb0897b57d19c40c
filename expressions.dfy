/**
 * Choosing the dominant facial expression of one detected face.
 *
 * The detector hands back, per face, an object from expression label to
 * confidence score. The script picks one label by a left fold over the
 * object's keys that keeps the accumulator only while it scores strictly more
 * than the next key. The keys of an object are distinct and come in insertion order, so the
 * object is modelled as a sequence of (label, score) entries in key order and
 * the reduction's accumulator as a position in that sequence. Only the order
 * of scores matters, so scores are reals.
 */
module Expressions {
  import opened Wrappers

  datatype Expression = Expression(name: string, score: real)

  /** One detected face; its bounding box is only drawn, so it is not modelled. */
  datatype Face = Face(expressions: seq<Expression>)

  /**
   * Position `k` holds a highest score and every later entry scores strictly
   * less: `k` is the last position of the maximum.
   */
  ghost predicate IsLastMax(es: seq<Expression>, k: nat)
  {
    && k < |es|
    && (forall j | 0 <= j < |es| :: es[j].score <= es[k].score)
    && (forall j | k < j < |es| :: es[j].score < es[k].score)
  }

  /**
   * The position the reduction settles on. `reduce` without an initial value
   * starts from the first key and folds left, so the result over `es` is the
   * step applied to the result over all but the last entry. Because the
   * comparison is a strict `>`, a later key that ties the accumulator wins.
   */
  function DominantIndex(es: seq<Expression>): (k: nat)
    requires |es| > 0
    ensures IsLastMax(es, k)
  {
    if |es| == 1 then 0
    else
      var a := DominantIndex(es[..|es| - 1]);
      if es[a].score > es[|es| - 1].score then a else |es| - 1
  }

  /** At most one position of a sequence is the last position of its maximum. */
  lemma LastMaxUnique(es: seq<Expression>, k1: nat, k2: nat)
    requires IsLastMax(es, k1) && IsLastMax(es, k2)
    ensures k1 == k2
  {
    assert es[k1].score == es[k2].score;
  }

  /**
   * The dominant label of a face. On an object with no keys, `reduce` with no
   * initial value throws a TypeError; that is `None` here.
   */
  function Dominant(es: seq<Expression>): (r: Option<string>)
    ensures r.None? <==> es == []
    ensures r.Some? ==> exists k | 0 <= k < |es| :: IsLastMax(es, k) && es[k].name == r.value
  {
    if es == [] then None
    else
      var k := DominantIndex(es);
      assert IsLastMax(es, k);
      Some(es[k].name)
  }

  /** The dominant label sits at the reduction's position, whose score is at least every entry's. */
  lemma DominantIsMaximal(es: seq<Expression>, j: nat)
    requires j < |es|
    ensures Dominant(es) == Some(es[DominantIndex(es)].name)
    ensures es[j].score <= es[DominantIndex(es)].score
  {
  }

  /** With a unique highest score, the dominant label is the label carrying it. */
  lemma UniqueMaximumChosen(es: seq<Expression>, k: nat)
    requires k < |es|
    requires forall j | 0 <= j < |es| && j != k :: es[j].score < es[k].score
    ensures Dominant(es) == Some(es[k].name)
  {
    LastMaxUnique(es, DominantIndex(es), k);
  }

  /**
   * Among labels that share the highest score, the one latest in key order is
   * chosen: no earlier position holding the maximum is the result.
   */
  lemma TieGoesToLaterKey(es: seq<Expression>, i: nat, j: nat)
    requires i < j < |es|
    requires es[i].score == es[j].score
    ensures DominantIndex(es) != i
  {
  }
}
