/**
 * Half-open spans of time and their union. `machine/benchHours.ts` (union) and `machine/pauseRules.ts` (scheduleAt)
 * merge sorted spans with the same loop: a span that starts no later than the last one ends extends it, any other is
 * appended.
 */
module Spans {
  import opened Prelude

  datatype Span = Span(from: int, to: int)

  predicate Covers(spans: seq<Span>, t: int) {
    exists i :: 0 <= i < |spans| && spans[i].from <= t < spans[i].to
  }

  ghost predicate Proper(spans: seq<Span>) {
    forall i :: 0 <= i < |spans| ==> spans[i].from < spans[i].to
  }

  ghost predicate Ascending(spans: seq<Span>) {
    forall i, j :: 0 <= i < j < |spans| ==> spans[i].from <= spans[j].from
  }

  /** Ordered, disjoint and not even touching. */
  ghost predicate Apart(spans: seq<Span>) {
    forall i, j :: 0 <= i < j < |spans| ==> spans[i].to < spans[j].from
  }

  /** One turn of the merge loop. */
  function Extend(merged: seq<Span>, w: Span): seq<Span> {
    if merged != [] && w.from <= merged[|merged| - 1].to then
      var last := merged[|merged| - 1];
      merged[|merged| - 1 := Span(last.from, Max(last.to, w.to))]
    else
      merged + [w]
  }

  function Merge(spans: seq<Span>): seq<Span> {
    if spans == [] then [] else Extend(Merge(spans[..|spans| - 1]), spans[|spans| - 1])
  }

  lemma CoversAppend(spans: seq<Span>, w: Span, t: int)
    ensures Covers(spans + [w], t) <==> Covers(spans, t) || w.from <= t < w.to
  {
    var all := spans + [w];
    if Covers(spans, t) {
      var i :| 0 <= i < |spans| && spans[i].from <= t < spans[i].to;
      assert all[i] == spans[i];
    }
    if w.from <= t < w.to {
      assert all[|spans|] == w;
    }
  }

  lemma ExtendCovers(merged: seq<Span>, w: Span, t: int)
    requires Proper(merged) && w.from < w.to
    requires merged != [] ==> merged[|merged| - 1].from <= w.from
    ensures Covers(Extend(merged, w), t) <==> Covers(merged, t) || w.from <= t < w.to
  {
    if merged != [] && w.from <= merged[|merged| - 1].to {
      var front, last := merged[..|merged| - 1], merged[|merged| - 1];
      var grown := Span(last.from, Max(last.to, w.to));
      assert merged == front + [last] && Extend(merged, w) == front + [grown];
      CoversAppend(front, last, t);
      CoversAppend(front, grown, t);
    } else {
      CoversAppend(merged, w, t);
    }
  }

  lemma ExtendApart(merged: seq<Span>, w: Span)
    requires Proper(merged) && Apart(merged) && w.from < w.to
    requires merged != [] ==> merged[|merged| - 1].from <= w.from
    ensures Proper(Extend(merged, w)) && Apart(Extend(merged, w)) && Extend(merged, w) != []
    ensures Extend(merged, w)[|Extend(merged, w)| - 1].from <= w.from
    ensures Extend(merged, w)[0].from == if merged == [] then w.from else merged[0].from
  {
  }

  /** The spans stay ordered, disjoint and apart, and the last one starts no later than the last span that went in. */
  lemma {:induction false} MergeApart(spans: seq<Span>)
    requires Proper(spans) && Ascending(spans)
    ensures Proper(Merge(spans)) && Apart(Merge(spans))
    ensures |Merge(spans)| == 0 <==> spans == []
    ensures spans != [] ==> Merge(spans)[0].from == spans[0].from
    ensures spans != [] ==> Merge(spans)[|Merge(spans)| - 1].from <= spans[|spans| - 1].from
  {
    if spans != [] {
      var front, w := spans[..|spans| - 1], spans[|spans| - 1];
      MergeApart(front);
      hide Extend;
      ExtendApart(Merge(front), w);
    }
  }

  lemma {:induction false} MergeCovers(spans: seq<Span>, t: int)
    requires Proper(spans) && Ascending(spans)
    ensures Covers(Merge(spans), t) <==> Covers(spans, t)
  {
    if spans != [] {
      var front, w := spans[..|spans| - 1], spans[|spans| - 1];
      assert spans == front + [w];
      MergeApart(front);
      MergeCovers(front, t);
      ExtendCovers(Merge(front), w, t);
      CoversAppend(front, w, t);
    }
  }

  /** The union: ordered, disjoint, non-touching spans over exactly the same instants. */
  lemma MergeIsUnion(spans: seq<Span>)
    requires Proper(spans) && Ascending(spans)
    ensures Proper(Merge(spans)) && Apart(Merge(spans))
    ensures forall t :: Covers(Merge(spans), t) <==> Covers(spans, t)
  {
    MergeApart(spans);
    forall t ensures Covers(Merge(spans), t) <==> Covers(spans, t) {
      MergeCovers(spans, t);
    }
  }
}
