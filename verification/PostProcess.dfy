/** Greedy non-maximum suppression of hardware/rknpu_infer/Yolov5PostProcess.h, in exact
    arithmetic. */
module PostProcess {

  const TOP_K := 1000
  const MAX_KEPT := 100

  datatype Rect = Rect(x: int, y: int, width: int, height: int)

  datatype Detection = Detection(classId: int, confidence: real, box: Rect)

  function Area(r: Rect): int {
    r.width * r.height
  }

  function Overlap(aStart: int, aSize: int, bStart: int, bSize: int): int {
    var start := if aStart < bStart then bStart else aStart;
    var end := if aStart + aSize < bStart + bSize then aStart + aSize else bStart + bSize;
    end - start
  }

  /** Area of the common rectangle; rectangles that do not meet have an empty one. */
  function Intersection(a: Rect, b: Rect): int {
    var w, h := Overlap(a.x, a.width, b.x, b.width), Overlap(a.y, a.height, b.y, b.height);
    if w <= 0 || h <= 0 then 0 else w * h
  }

  function Iou(a: Detection, b: Detection): real {
    var inter := Intersection(a.box, b.box);
    var area := Area(a.box) + Area(b.box) - inter;
    if area > 0 then inter as real / area as real else 0.0
  }

  predicate Suppresses(kept: Detection, c: Detection, threshold: real) {
    kept.classId == c.classId && Iou(kept, c) > threshold
  }

  predicate Suppressed(out: seq<Detection>, c: Detection, threshold: real) {
    exists k :: 0 <= k < |out| && Suppresses(out[k], c, threshold)
  }

  /** What greedy selection keeps of a list, decided from the front. */
  function Greedy(s: seq<Detection>, threshold: real): (out: seq<Detection>)
    ensures |out| <= MAX_KEPT
  {
    if s == [] then []
    else
      var out := Greedy(s[..|s| - 1], threshold);
      var c := s[|s| - 1];
      if |out| == MAX_KEPT || Suppressed(out, c, threshold) then out else out + [c]
  }

  ghost predicate Descending(s: seq<Detection>) {
    forall i, j :: 0 <= i < j < |s| ==> s[i].confidence >= s[j].confidence
  }

  function Top(s: seq<Detection>): seq<Detection> {
    if |s| > TOP_K then s[..TOP_K] else s
  }

  /** The sort fixes the order only up to ties. */
  ghost predicate Ranking(order: seq<Detection>, d: seq<Detection>) {
    multiset(order) == multiset(d) && Descending(order)
  }

  // ----- the loops -----

  lemma InsertKeepsDescending(order: seq<Detection>, at: nat, x: Detection)
    requires Descending(order) && at <= |order|
    requires at > 0 ==> order[at - 1].confidence >= x.confidence
    requires at < |order| ==> x.confidence > order[at].confidence
    ensures Descending(order[..at] + [x] + order[at..])
  {
  }

  lemma InsertAdds(order: seq<Detection>, at: nat, x: Detection)
    requires at <= |order|
    ensures multiset(order[..at] + [x] + order[at..]) == multiset(order) + multiset{x}
  {
    assert order == order[..at] + order[at..];
  }

  method Insert(order: seq<Detection>, x: Detection) returns (r: seq<Detection>)
    requires Descending(order)
    ensures Descending(r) && multiset(r) == multiset(order) + multiset{x}
  {
    var at := |order|;
    while at > 0 && order[at - 1].confidence < x.confidence
      invariant 0 <= at <= |order|
      invariant at < |order| ==> order[at].confidence < x.confidence
    {
      at := at - 1;
    }
    InsertKeepsDescending(order, at, x);
    InsertAdds(order, at, x);
    r := order[..at] + [x] + order[at..];
  }

  method Sort(d: seq<Detection>) returns (order: seq<Detection>)
    ensures Ranking(order, d)
  {
    order := [];
    for n := 0 to |d|
      invariant Ranking(order, d[..n])
    {
      assert d[..n + 1] == d[..n] + [d[n]];
      order := Insert(order, d[n]);
    }
    assert d[..|d|] == d;
  }

  method Nms(d: seq<Detection>, threshold: real) returns (out: seq<Detection>, order: seq<Detection>)
    ensures Ranking(order, d)
    ensures out == Greedy(Top(order), threshold)
  {
    order := Sort(d);
    var top := Top(order);
    out := [];
    for n := 0 to |top|
      invariant out == Greedy(top[..n], threshold) && |out| < MAX_KEPT
    {
      var candidate := top[n];
      var suppressed := false;
      for k := 0 to |out|
        invariant !suppressed
        invariant forall j :: 0 <= j < k ==> !Suppresses(out[j], candidate, threshold)
      {
        if out[k].classId == candidate.classId && Iou(out[k], candidate) > threshold {
          suppressed := true;
          break;
        }
      }
      assert suppressed == Suppressed(out, candidate, threshold);
      assert top[..n + 1][..n] == top[..n];
      if !suppressed { out := out + [candidate]; }
      if |out| == MAX_KEPT {
        FullStaysFull(top, n + 1, threshold);
        return;
      }
    }
    assert top[..|top|] == top;
  }

  lemma {:induction false} FullStaysFull(s: seq<Detection>, n: nat, threshold: real)
    requires n <= |s| && |Greedy(s[..n], threshold)| == MAX_KEPT
    ensures Greedy(s, threshold) == Greedy(s[..n], threshold)
    decreases |s| - n
  {
    if n == |s| {
      assert s[..n] == s;
    } else {
      assert s[..n + 1][..n] == s[..n];
      FullStaysFull(s, n + 1, threshold);
    }
  }

  // ----- geometry of the overlap measure -----

  lemma ProductLeq(a: int, b: int, c: int, d: int)
    requires 0 <= a <= c && 0 <= b <= d
    ensures 0 <= a * b <= c * d
  {
    assert a * b <= c * b;
    assert c * b <= c * d;
  }

  /** The measure is symmetric, lies between 0 and 1, and is 1 exactly for equal boxes. */
  lemma IouIsASimilarity(a: Detection, b: Detection)
    requires a.box.width > 0 && a.box.height > 0 && b.box.width > 0 && b.box.height > 0
    ensures Iou(a, b) == Iou(b, a)
    ensures 0.0 <= Iou(a, b) <= 1.0
    ensures Iou(a, b) == 1.0 <==> a.box == b.box
  {
    var w, h := Overlap(a.box.x, a.box.width, b.box.x, b.box.width), Overlap(a.box.y, a.box.height, b.box.y, b.box.height);
    var inter := Intersection(a.box, b.box);
    var area := Area(a.box) + Area(b.box) - inter;
    ProductLeq(1, 1, a.box.width, a.box.height);
    ProductLeq(1, 1, b.box.width, b.box.height);
    if w > 0 && h > 0 {
      ProductLeq(w, h, a.box.width, a.box.height);
      ProductLeq(w, h, b.box.width, b.box.height);
      if inter == area {
        assert w * h == a.box.width * a.box.height == b.box.width * b.box.height;
        SameProduct(w, h, a.box.width, a.box.height);
        SameProduct(w, h, b.box.width, b.box.height);
      }
    }
    RatioBounds(inter, area);
  }

  predicate Within(inner: Rect, outer: Rect) {
    && outer.x <= inner.x && inner.x + inner.width <= outer.x + outer.width
    && outer.y <= inner.y && inner.y + inner.height <= outer.y + outer.height
  }

  predicate Apart(a: Rect, b: Rect) {
    a.x + a.width <= b.x || b.x + b.width <= a.x || a.y + a.height <= b.y || b.y + b.height <= a.y
  }

  /** The scale of the measure: for a box inside another it is the ratio of their areas, and
      it is 0 exactly for boxes that share no pixel. */
  lemma IouOfNestedAndApart(a: Detection, b: Detection)
    requires a.box.width > 0 && a.box.height > 0 && b.box.width > 0 && b.box.height > 0
    ensures Within(a.box, b.box) ==>
      Iou(a, b) * (b.box.width * b.box.height) as real == (a.box.width * a.box.height) as real
    ensures Iou(a, b) == 0.0 <==> Apart(a.box, b.box)
  {
    var w, h := Overlap(a.box.x, a.box.width, b.box.x, b.box.width), Overlap(a.box.y, a.box.height, b.box.y, b.box.height);
    ProductLeq(1, 1, a.box.width, a.box.height);
    ProductLeq(1, 1, b.box.width, b.box.height);
    if w > 0 && h > 0 {
      ProductLeq(1, 1, w, h);
      ProductLeq(w, h, a.box.width, a.box.height);
    }
  }

  lemma SameProduct(w: int, h: int, width: int, height: int)
    requires 0 < w <= width && 0 < h <= height && w * h == width * height
    ensures w == width && h == height
  {
    if w < width {
      ProductLeq(w + 1, h, width, height);
    } else if h < height {
      ProductLeq(w, h + 1, width, height);
    }
  }

  lemma RatioBounds(inter: int, area: int)
    requires 0 <= inter <= area && 0 < area
    ensures 0.0 <= inter as real / area as real <= 1.0
    ensures inter as real / area as real == 1.0 <==> inter == area
  {
  }

  // ----- what greedy selection promises -----

  /** Everything kept comes from the list, in its order. */
  lemma {:induction false} GreedyIsDescending(s: seq<Detection>, threshold: real)
    requires Descending(s)
    ensures Descending(Greedy(s, threshold))
    ensures forall k :: 0 <= k < |Greedy(s, threshold)| ==> Greedy(s, threshold)[k] in s
  {
    if s != [] {
      var less := s[..|s| - 1];
      GreedyIsDescending(less, threshold);
      var out := Greedy(less, threshold);
      forall k | 0 <= k < |out|
        ensures out[k] in s && out[k].confidence >= s[|s| - 1].confidence
      {
        var j :| 0 <= j < |less| && less[j] == out[k];
        assert s[j] == less[j];
      }
    }
  }

  ghost predicate Independent(out: seq<Detection>, threshold: real) {
    forall i, j :: 0 <= i < j < |out| ==> !Suppresses(out[i], out[j], threshold)
  }

  lemma {:induction false} GreedyIsIndependent(s: seq<Detection>, threshold: real)
    ensures Independent(Greedy(s, threshold), threshold)
  {
    if s != [] { GreedyIsIndependent(s[..|s| - 1], threshold); }
  }

  /** Every candidate is kept, or suppressed by a kept box of its class that is at least as
      confident, or came after a full hundred at least as confident. */
  lemma {:induction false} GreedyCovers(s: seq<Detection>, threshold: real, i: nat)
    requires Descending(s) && i < |s|
    ensures
      var out := Greedy(s, threshold);
      || s[i] in out
      || (exists k :: 0 <= k < |out| && Suppresses(out[k], s[i], threshold) && out[k].confidence >= s[i].confidence)
      || (|out| == MAX_KEPT && forall k :: 0 <= k < |out| ==> out[k].confidence >= s[i].confidence)
  {
    var less := s[..|s| - 1];
    var out := Greedy(s, threshold);
    GreedyIsDescending(less, threshold);
    var before := Greedy(less, threshold);
    if i < |s| - 1 {
      GreedyCovers(less, threshold, i);
      assert before <= out;
      if k :| 0 <= k < |before| && Suppresses(before[k], s[i], threshold) && before[k].confidence >= s[i].confidence {
        assert out[k] == before[k];
      }
    } else {
      forall k | 0 <= k < |before| ensures before[k].confidence >= s[i].confidence {
        var j :| 0 <= j < |less| && less[j] == before[k];
        assert s[j] == less[j];
      }
    }
  }

  /** Candidate x is kept, or a kept box of its class, at least as confident, overlaps it by more
      than the threshold, or a hundred boxes at least as confident are kept. */
  ghost predicate Accounted(out: seq<Detection>, x: Detection, threshold: real) {
    || x in out
    || (exists k :: 0 <= k < |out| && out[k].classId == x.classId && Iou(out[k], x) > threshold && out[k].confidence >= x.confidence)
    || (|out| == 100 && forall k :: 0 <= k < |out| ==> out[k].confidence >= x.confidence)
  }

  lemma TopIsFromInput(d: seq<Detection>, order: seq<Detection>, x: Detection)
    requires Ranking(order, d) && x in Top(order)
    ensures x in d
  {
    assert x in order;
    assert x in multiset(order);
  }

  /** The promises of nms() about its result, whatever the sort does with ties. */
  lemma NmsIsSound(d: seq<Detection>, order: seq<Detection>, threshold: real)
    requires Ranking(order, d)
    ensures
      var out := Greedy(Top(order), threshold);
      && |out| <= 100
      && (forall i, j :: 0 <= i < j < |out| ==>
            && out[i].confidence >= out[j].confidence
            && (out[i].classId == out[j].classId ==> Iou(out[i], out[j]) <= threshold))
      && (forall k :: 0 <= k < |out| ==> out[k] in d && out[k] in order[..if |order| < 1000 then |order| else 1000])
      && (forall i :: 0 <= i < |order| && i < 1000 ==> Accounted(out, order[i], threshold))
  {
    var top := Top(order);
    var out := Greedy(top, threshold);
    GreedyIsDescending(top, threshold);
    GreedyIsIndependent(top, threshold);
    assert top == order[..if |order| < 1000 then |order| else 1000];
    forall k | 0 <= k < |out| ensures out[k] in d {
      TopIsFromInput(d, order, out[k]);
    }
    forall i, j | 0 <= i < j < |out| && out[i].classId == out[j].classId ensures Iou(out[i], out[j]) <= threshold {
      assert !Suppresses(out[i], out[j], threshold);
    }
    forall i | 0 <= i < |order| && i < 1000 ensures Accounted(out, order[i], threshold) {
      assert order[i] == top[i];
      GreedyCovers(top, threshold, i);
    }
  }

  lemma {:induction false} GreedyKeepsIndependent(s: seq<Detection>, threshold: real)
    requires Independent(s, threshold) && |s| <= MAX_KEPT
    ensures Greedy(s, threshold) == s
  {
    if s != [] {
      var less := s[..|s| - 1];
      assert Independent(less, threshold);
      GreedyKeepsIndependent(less, threshold);
    }
  }

  /** Independence does not depend on the order: it is about which boxes occur together. */
  lemma IndependentAsMultiset(s: seq<Detection>, threshold: real)
    ensures Independent(s, threshold) <==>
      (forall i, j :: 0 <= i < |s| && 0 <= j < |s| && i != j ==> !Suppresses(s[i], s[j], threshold))
  {
    forall i, j | 0 <= i < |s| && 0 <= j < |s| ensures Suppresses(s[i], s[j], threshold) == Suppresses(s[j], s[i], threshold) {
      IouSymmetric(s[i], s[j]);
    }
  }

  lemma IouSymmetric(a: Detection, b: Detection)
    ensures Iou(a, b) == Iou(b, a)
  {
  }

  function RemoveAt(s: seq<Detection>, k: nat): seq<Detection>
    requires k < |s|
  {
    s[..k] + s[k + 1..]
  }

  lemma RemoveAtTakesOne(s: seq<Detection>, k: nat)
    requires k < |s|
    ensures multiset(RemoveAt(s, k)) == multiset(s) - multiset{s[k]}
  {
    assert s == s[..k] + [s[k]] + s[k + 1..];
  }

  lemma Find(s: seq<Detection>, x: Detection) returns (k: nat)
    requires x in multiset(s)
    ensures k < |s| && s[k] == x
  {
    k :| 0 <= k < |s| && s[k] == x;
  }

  /** Two positions of a list are matched by two positions of any reordering of it. */
  lemma PairsOccur(s: seq<Detection>, t: seq<Detection>, i: nat, j: nat) returns (a: nat, b: nat)
    requires multiset(s) == multiset(t) && i < j < |t|
    ensures a < |s| && b < |s| && a != b && s[a] == t[i] && s[b] == t[j]
  {
    assert t[i] in multiset(t);
    a := Find(s, t[i]);
    RemoveAtTakesOne(s, a);
    RemoveAtTakesOne(t, i);
    assert RemoveAt(t, i)[j - 1] == t[j];
    assert t[j] in multiset(RemoveAt(t, i));
    b := Find(RemoveAt(s, a), t[j]);
    b := if b < a then b else b + 1;
  }

  /** Running nms() on its own result changes nothing but the order of ties. */
  lemma NmsIsIdempotent(s: seq<Detection>, threshold: real, again: seq<Detection>)
    requires Ranking(again, Greedy(s, threshold))
    ensures Greedy(Top(again), threshold) == again
  {
    var out := Greedy(s, threshold);
    GreedyIsIndependent(s, threshold);
    IndependentAsMultiset(out, threshold);
    assert |multiset(again)| == |multiset(out)|;
    forall i, j | 0 <= i < j < |again| ensures !Suppresses(again[i], again[j], threshold) {
      var a, b := PairsOccur(out, again, i, j);
    }
    GreedyKeepsIndependent(again, threshold);
  }

  ghost predicate DistinctConfidences(d: seq<Detection>) {
    forall i, j :: 0 <= i < j < |d| ==> d[i].confidence != d[j].confidence
  }

  /** With distinct confidences the ranking, and so the result, ignores the input order. */
  lemma {:induction false} RankingIsUnique(a: seq<Detection>, b: seq<Detection>)
    requires multiset(a) == multiset(b) && Descending(a) && Descending(b) && DistinctConfidences(a)
    ensures a == b
    decreases |a|
  {
    assert |multiset(a)| == |multiset(b)|;
    if a != [] {
      assert a[0] in multiset(a) && b[0] in multiset(b);
      var i := Find(b, a[0]);
      var j := Find(a, b[0]);
      assert a[0].confidence == b[0].confidence;
      assert j == 0;
      RemoveAtTakesOne(a, 0);
      RemoveAtTakesOne(b, 0);
      assert RemoveAt(a, 0) == a[1..] && RemoveAt(b, 0) == b[1..];
      RankingIsUnique(a[1..], b[1..]);
    }
  }

  lemma NmsIgnoresInputOrder(d: seq<Detection>, e: seq<Detection>, p: seq<Detection>, q: seq<Detection>, threshold: real)
    requires multiset(d) == multiset(e) && DistinctConfidences(d)
    requires Ranking(p, d) && Ranking(q, e)
    ensures Greedy(Top(p), threshold) == Greedy(Top(q), threshold)
  {
    forall i, j | 0 <= i < j < |p| ensures p[i].confidence != p[j].confidence {
      var a, b := PairsOccur(d, p, i, j);
    }
    RankingIsUnique(p, q);
  }
}
