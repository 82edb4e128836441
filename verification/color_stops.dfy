/**
 * The colour-stop half of the gradient generator: the two shapes a gradient may
 * be given in (an offset -> colour object, or a list of colours spaced evenly),
 * and the normalisation of their stops into a sorted list of offsets on 0..255
 * that always reaches both ends.
 */
module ColorStops {
  import opened Wrappers

  /** A colour as the colour-parsing library reports it: red, green, blue on 0..255, alpha on 0..1. */
  datatype Color = Color(red: real, green: real, blue: real, alpha: real)

  /** The channels of a stop once its alpha has been rescaled to 0..255. */
  datatype Channels = Channels(red: real, green: real, blue: real, alpha: real)

  /** One key/value pair of an offset -> colour object; `key` is None when parsing the key gives NaN. */
  datatype StopEntry = StopEntry(key: Option<real>, color: Color)

  /** A gradient as the user gives it. */
  datatype GradientStops =
    | StopMap(entries: seq<StopEntry>)
    | ColorList(colors: seq<Color>)

  /** A stop with a numeric offset and rescaled channels. */
  datatype Stop = Stop(offset: real, channels: Channels)

  const TransparentBlack := Channels(0.0, 0.0, 0.0, 0.0)

  /** A parsed colour as the stop keeps it: red, green and blue as they are, alpha from 0..1 to 0..255. */
  function Rescale(c: Color): (r: Channels)
    ensures r.red == c.red && r.green == c.green && r.blue == c.blue
    ensures r.alpha / 255.0 == c.alpha
    ensures 0.0 <= c.alpha <= 1.0 ==> 0.0 <= r.alpha <= 255.0
  {
    Channels(c.red, c.green, c.blue, c.alpha * 255.0)
  }

  /**
   * A list of n != 1 colours as an offset -> colour object: colour i gets the
   * key i/(n-1), so the keys run evenly from 0 to 1.
   */
  function ListToMap(colors: seq<Color>): (es: seq<StopEntry>)
    requires |colors| != 1
    ensures |es| == |colors|
    ensures forall i :: 0 <= i < |es| ==> es[i].color == colors[i]
    ensures forall i :: 0 <= i < |es| ==> es[i].key == Some(i as real / (|colors| - 1) as real)
    ensures |es| > 1 ==> es[0].key == Some(0.0) && es[|es| - 1].key == Some(1.0)
  {
    var es := seq(|colors|, i requires 0 <= i < |colors| => StopEntry(Some(i as real / (|colors| - 1) as real), colors[i]));
    assert |colors| > 1 ==> es[|colors| - 1].key == Some(1.0) by {
      if |colors| > 1 {
        var d := (|colors| - 1) as real;
        DivideSelf(d);
      }
    }
    es
  }

  lemma DivideSelf(d: real)
    requires d != 0.0
    ensures d / d == 1.0
  {
  }

  /**
   * The keyed entries of an object, in order, as stops: an entry whose key is
   * NaN is dropped (and only such an entry), and alpha is rescaled to 0..255.
   */
  function Prep(es: seq<StopEntry>): (r: seq<Stop>)
    ensures |r| <= |es|
    ensures r == [] <==> forall k :: 0 <= k < |es| ==> es[k].key.None?
    ensures forall s :: s in r ==> exists e :: e in es && e.key == Some(s.offset) && s.channels == Rescale(e.color)
  {
    if es == [] then []
    else
      var rest := Prep(es[1..]);
      assert forall e :: e in es[1..] ==> e in es;
      match es[0].key
      case None => rest
      case Some(o) => [Stop(o, Rescale(es[0].color))] + rest
  }

  /** Offsets never decrease along the list. */
  predicate Sorted(s: seq<Stop>) {
    forall i, j :: 0 <= i < j < |s| ==> s[i].offset <= s[j].offset
  }

  /** Offsets increase strictly along the list. */
  predicate StrictlySorted(s: seq<Stop>) {
    forall i, j :: 0 <= i < j < |s| ==> s[i].offset < s[j].offset
  }

  /** Puts `x` into a sorted list after every stop whose offset is at most its own. */
  function Insert(s: seq<Stop>, x: Stop): (r: seq<Stop>)
    requires Sorted(s)
    ensures Sorted(r)
    ensures multiset(r) == multiset(s) + multiset{x}
    ensures forall y :: y in r ==> y in s || y == x
  {
    if s == [] then [x]
    else if x.offset < s[0].offset then
      SortedCons(x, s);
      [x] + s
    else
      var rest := Insert(s[1..], x);
      assert s == [s[0]] + s[1..];
      assert rest[0] in rest;
      SortedCons(s[0], rest);
      [s[0]] + rest
  }

  /**
   * The order the comparator `(a, b) => a.offset - b.offset` gives under the
   * engine's stable sort: ascending offsets, stops with equal offsets kept in
   * their original order (see SortIsStable).
   */
  function SortByOffset(s: seq<Stop>): (r: seq<Stop>)
    ensures Sorted(r)
    ensures multiset(r) == multiset(s)
  {
    if s == [] then []
    else
      assert s == s[..|s| - 1] + [s[|s| - 1]];
      Insert(SortByOffset(s[..|s| - 1]), s[|s| - 1])
  }

  /** The stops of `s` whose offset is `o`, in their order in `s`. */
  function AtOffset(s: seq<Stop>, o: real): seq<Stop> {
    if s == [] then []
    else (if s[0].offset == o then [s[0]] else []) + AtOffset(s[1..], o)
  }

  lemma {:induction false} AtOffsetAppend(a: seq<Stop>, b: seq<Stop>, o: real)
    ensures AtOffset(a + b, o) == AtOffset(a, o) + AtOffset(b, o)
  {
    if a == [] {
      assert a + b == b;
    } else {
      AtOffsetAppend(a[1..], b, o);
      assert a == [a[0]] + a[1..];
      assert a + b == [a[0]] + (a[1..] + b);
      ConsAtOffset(a[0], a[1..] + b, a[1..], AtOffset(b, o), o);
    }
  }

  lemma {:induction false} AtOffsetNone(s: seq<Stop>, o: real)
    requires forall k :: 0 <= k < |s| ==> s[k].offset > o
    ensures AtOffset(s, o) == []
  {
    if s != [] {
      AtOffsetNone(s[1..], o);
    }
  }

  /** The stops of a list at an offset: its first stop if it is there, then those of the rest. */
  lemma AtOffsetCons(y: Stop, rest: seq<Stop>, o: real)
    ensures AtOffset([y] + rest, o) == (if y.offset == o then [y] else []) + AtOffset(rest, o)
  {
    assert ([y] + rest)[1..] == rest;
  }

  lemma {:induction false} InsertAtOffset(s: seq<Stop>, x: Stop, o: real)
    requires Sorted(s)
    ensures AtOffset(Insert(s, x), o) == AtOffset(s, o) + (if x.offset == o then [x] else [])
  {
    if s == [] {
      AtOffsetCons(x, [], o);
    } else if x.offset < s[0].offset {
      InsertFrontAtOffset(s, x, o);
    } else {
      InsertAtOffset(s[1..], x, o);
      InsertBehindFirst(s, x);
      assert s == [s[0]] + s[1..];
      ConsAtOffset(s[0], Insert(s[1..], x), s[1..], if x.offset == o then [x] else [], o);
    }
  }

  lemma AppendAssoc(a: seq<Stop>, b: seq<Stop>, c: seq<Stop>)
    ensures a + (b + c) == (a + b) + c
  {
  }

  /** A stop below all others goes in front, so it comes first among the stops at its offset. */
  lemma InsertFrontAtOffset(s: seq<Stop>, x: Stop, o: real)
    requires Sorted(s) && s != [] && x.offset < s[0].offset
    ensures AtOffset(Insert(s, x), o) == AtOffset(s, o) + (if x.offset == o then [x] else [])
  {
    assert Insert(s, x) == [x] + s;
    AtOffsetCons(x, s, o);
    if x.offset == o {
      AtOffsetNone(s, o);
    }
  }

  /** A stop not below the first one is inserted into the rest. */
  lemma InsertBehindFirst(s: seq<Stop>, x: Stop)
    requires Sorted(s) && s != [] && s[0].offset <= x.offset
    ensures Insert(s, x) == [s[0]] + Insert(s[1..], x)
  {
  }

  /** Putting the same stop in front of two lists keeps the relation between their stops at an offset. */
  lemma ConsAtOffset(y: Stop, rest: seq<Stop>, s: seq<Stop>, tail: seq<Stop>, o: real)
    requires AtOffset(rest, o) == AtOffset(s, o) + tail
    ensures AtOffset([y] + rest, o) == AtOffset([y] + s, o) + tail
  {
    var head := if y.offset == o then [y] else [];
    AtOffsetCons(y, rest, o);
    AtOffsetCons(y, s, o);
    AppendAssoc(head, AtOffset(s, o), tail);
  }

  /** The sort is stable: the stops that share an offset keep their relative order. */
  lemma {:induction false} SortIsStable(s: seq<Stop>, o: real)
    ensures AtOffset(SortByOffset(s), o) == AtOffset(s, o)
  {
    if s != [] {
      var init, last := s[..|s| - 1], s[|s| - 1];
      assert s == init + [last];
      assert SortByOffset(s) == Insert(SortByOffset(init), last);
      SortIsStable(init, o);
      InsertAtOffset(SortByOffset(init), last, o);
      AtOffsetAppend(init, [last], o);
      assert [last][1..] == [];
      assert AtOffset([last], o) == (if last.offset == o then [last] else []) + AtOffset([], o);
    }
  }

  lemma {:induction false} InsertLast(s: seq<Stop>, x: Stop)
    requires Sorted(s)
    requires forall k :: 0 <= k < |s| ==> s[k].offset <= x.offset
    ensures Insert(s, x) == s + [x]
  {
    if s != [] {
      InsertLast(s[1..], x);
      assert s == [s[0]] + s[1..];
    }
  }

  /** A list already in ascending order comes out of the sort unchanged. */
  lemma {:induction false} SortSortedIsIdentity(s: seq<Stop>)
    requires Sorted(s)
    ensures SortByOffset(s) == s
  {
    if s != [] {
      var init, last := s[..|s| - 1], s[|s| - 1];
      SortSortedIsIdentity(init);
      InsertLast(init, last);
      assert s == init + [last];
    }
  }

  /** Every offset multiplied by 255 (the `forEach` that rescales 0..1 to 0..255). */
  function ScaleOffsets(s: seq<Stop>): (r: seq<Stop>)
    ensures |r| == |s|
  {
    seq(|s|, k requires 0 <= k < |s| => Stop(s[k].offset * 255.0, s[k].channels))
  }

  /** Scaling by 255 keeps the order of the offsets, strict or not. */
  lemma ScaleKeepsOrder(s: seq<Stop>)
    ensures Sorted(s) ==> Sorted(ScaleOffsets(s))
    ensures StrictlySorted(s) ==> StrictlySorted(ScaleOffsets(s))
  {
    var r := ScaleOffsets(s);
    if Sorted(s) {
      forall i, j | 0 <= i < j < |r|
        ensures r[i].offset <= r[j].offset
      {
        assert s[i].offset <= s[j].offset;
      }
    }
    if StrictlySorted(s) {
      forall i, j | 0 <= i < j < |r|
        ensures r[i].offset < r[j].offset
      {
        assert s[i].offset < s[j].offset;
      }
    }
  }

  /**
   * The stop list once transparent black stops have been added at 0 (when the
   * first offset is above 0) and at 255 (when the last is below 255).
   */
  function AddBoundaries(s: seq<Stop>): (r: seq<Stop>)
    requires s != []
    ensures |r| >= 1 && r[0].offset <= 0.0 && r[|r| - 1].offset >= 255.0
  {
    var front := if s[0].offset > 0.0 then [Stop(0.0, TransparentBlack)] + s else s;
    if front[|front| - 1].offset < 255.0 then front + [Stop(255.0, TransparentBlack)] else front
  }

  /**
   * The boundary stops: the original stops appear unchanged and contiguous, a
   * transparent black stop at 0 comes before them exactly when the first
   * offset is above 0 and one at 255 after them exactly when the last offset
   * is below 255; a sorted list stays sorted.
   */
  lemma AddBoundariesShape(s: seq<Stop>)
    requires s != []
    ensures var r := AddBoundaries(s);
      var pre := if s[0].offset > 0.0 then [Stop(0.0, TransparentBlack)] else [];
      var post := if s[|s| - 1].offset < 255.0 then [Stop(255.0, TransparentBlack)] else [];
      r == pre + s + post
  {
    var pre := if s[0].offset > 0.0 then [Stop(0.0, TransparentBlack)] else [];
    var front := pre + s;
    assert front[|front| - 1] == s[|s| - 1];
  }

  /** Adding the boundary stops keeps a sorted list sorted. */
  lemma AddBoundariesSorted(s: seq<Stop>)
    requires s != [] && Sorted(s)
    ensures Sorted(AddBoundaries(s))
  {
    var front := s;
    if s[0].offset > 0.0 {
      SortedCons(Stop(0.0, TransparentBlack), s);
      front := [Stop(0.0, TransparentBlack)] + s;
    }
    assert front[|front| - 1] == s[|s| - 1];
    if front[|front| - 1].offset < 255.0 {
      SortedSnoc(front, Stop(255.0, TransparentBlack));
    }
  }

  lemma SortedCons(x: Stop, s: seq<Stop>)
    requires Sorted(s) && s != [] && x.offset <= s[0].offset
    ensures Sorted([x] + s)
  {
    var r := [x] + s;
    forall i, j | 0 <= i < j < |r|
      ensures r[i].offset <= r[j].offset
    {
      assert r[j] == s[j - 1];
      if i > 0 {
        assert r[i] == s[i - 1];
      } else {
        assert s[0].offset <= s[j - 1].offset;
      }
    }
  }

  lemma SortedSnoc(s: seq<Stop>, x: Stop)
    requires Sorted(s) && s != [] && s[|s| - 1].offset <= x.offset
    ensures Sorted(s + [x])
  {
    var r := s + [x];
    forall i, j | 0 <= i < j < |r|
      ensures r[i].offset <= r[j].offset
    {
      assert r[i] == s[i];
      if j < |s| {
        assert r[j] == s[j];
      } else {
        assert s[i].offset <= s[|s| - 1].offset;
      }
    }
  }

  /** A list that already reaches 0 and 255 gets no boundary stop. */
  lemma AddBoundariesWhenCovered(s: seq<Stop>)
    requires s != [] && s[0].offset <= 0.0 && s[|s| - 1].offset >= 255.0
    ensures AddBoundaries(s) == s
  {
  }

  /**
   * When every offset is above 0, the normalised list opens with the added
   * transparent stop at 0, followed by a stop above 0.
   */
  lemma NormalizeStartsTransparent(prepped: seq<Stop>)
    requires prepped != [] && forall s :: s in prepped ==> s.offset > 0.0
    ensures var r := Normalize(prepped);
      r[0] == Stop(0.0, TransparentBlack) && r[1].offset > 0.0
  {
    var sorted := SortByOffset(prepped);
    assert sorted[0] in multiset(prepped);
    var scaled := ScaleOffsets(sorted);
    assert scaled[0].offset > 0.0;
    AddBoundariesShape(scaled);
  }

  /**
   * When every offset is below 1, the normalised list closes with the added
   * transparent stop at 255, and every other stop but the first lies below 255.
   */
  lemma NormalizeEndsTransparent(prepped: seq<Stop>)
    requires prepped != [] && forall s :: s in prepped ==> s.offset < 1.0
    ensures EndsTransparent(Normalize(prepped))
  {
    var scaled := ScaleOffsets(SortByOffset(prepped));
    ScaledBelowTop(prepped);
    BoundariesEndTransparent(scaled);
    assert Normalize(prepped) == AddBoundaries(scaled);
  }

  /** Offsets below 1 scale to offsets below 255, whatever their order. */
  lemma ScaledBelowTop(prepped: seq<Stop>)
    requires forall s :: s in prepped ==> s.offset < 1.0
    ensures var scaled := ScaleOffsets(SortByOffset(prepped));
      && |scaled| == |prepped|
      && forall j :: 0 <= j < |scaled| ==> scaled[j].offset < 255.0
  {
    var sorted := SortByOffset(prepped);
    assert |sorted| == |multiset(sorted)| == |prepped|;
    forall j | 0 <= j < |sorted|
      ensures sorted[j].offset < 1.0
    {
      assert sorted[j] in multiset(prepped);
    }
  }

  /** Stops all below 255 get the transparent black stop at 255 appended. */
  lemma BoundariesEndTransparent(s: seq<Stop>)
    requires s != [] && forall j :: 0 <= j < |s| ==> s[j].offset < 255.0
    ensures var r := AddBoundaries(s);
      && r[|r| - 1] == Stop(255.0, TransparentBlack)
      && forall j :: 1 <= j < |r| - 1 ==> r[j].offset < 255.0
  {
    AddBoundariesShape(s);
    var r := AddBoundaries(s);
    forall j | 1 <= j < |r| - 1
      ensures r[j].offset < 255.0
    {
      if s[0].offset > 0.0 {
        assert r[j] == s[j - 1];
      } else {
        assert r[j] == s[j];
      }
    }
  }

  /** Well formed, closing with transparent black at 255, and no other stop but the first at 255. */
  predicate EndsTransparent(stops: seq<Stop>) {
    && WellFormed(stops)
    && stops[|stops| - 1] == Stop(255.0, TransparentBlack)
    && forall j :: 1 <= j < |stops| - 1 ==> stops[j].offset < 255.0
  }

  /** What the table builder needs of its stops: at least two, ascending, reaching 0 and 255. */
  predicate WellFormed(stops: seq<Stop>) {
    && |stops| >= 2
    && Sorted(stops)
    && stops[0].offset <= 0.0
    && stops[|stops| - 1].offset >= 255.0
  }

  /** Sort, rescale to 0..255, add the boundary stops. */
  function Normalize(prepped: seq<Stop>): (r: seq<Stop>)
    requires prepped != []
    ensures WellFormed(r)
  {
    var scaled := ScaleOffsets(SortByOffset(prepped));
    ScaleKeepsOrder(SortByOffset(prepped));
    AddBoundariesSorted(scaled);
    AddBoundaries(scaled)
  }

  /** The stops of a map whose keys all parse, in order. */
  lemma {:induction false} PrepAllKeyed(es: seq<StopEntry>)
    requires forall k :: 0 <= k < |es| ==> es[k].key.Some?
    ensures Prep(es) == seq(|es|, k requires 0 <= k < |es| => Stop(es[k].key.value, Rescale(es[k].color)))
  {
    if es != [] {
      PrepAllKeyed(es[1..]);
    }
  }

  /**
   * One entry on its own: kept as a stop exactly when its key parses. With
   * PrepAppend this pins Prep down as the filter that drops the NaN keys and
   * nothing else, keeping the order of the rest.
   */
  lemma PrepOne(e: StopEntry)
    ensures Prep([e]) == if e.key.Some? then [Stop(e.key.value, Rescale(e.color))] else []
  {
    assert [e][1..] == [];
  }

  /** The stops of a concatenation are the stops of each part, in order. */
  lemma {:induction false} PrepAppend(a: seq<StopEntry>, b: seq<StopEntry>)
    ensures Prep(a + b) == Prep(a) + Prep(b)
  {
    if a == [] {
      assert a + b == b;
    } else {
      var e, rest := a[0], a[1..];
      var head := if e.key.Some? then [Stop(e.key.value, Rescale(e.color))] else [];
      calc {
        Prep(a + b);
        { assert a + b == [e] + (rest + b); }
        Prep([e] + (rest + b));
        { PrepCons(e, rest + b); }
        head + Prep(rest + b);
        { PrepAppend(rest, b); }
        head + (Prep(rest) + Prep(b));
        { AppendAssoc(head, Prep(rest), Prep(b)); }
        (head + Prep(rest)) + Prep(b);
        { PrepCons(e, rest); assert a == [e] + rest; }
        Prep(a) + Prep(b);
      }
    }
  }

  /** The first entry contributes its stop, if its key parses, ahead of the rest's. */
  lemma PrepCons(e: StopEntry, rest: seq<StopEntry>)
    ensures Prep([e] + rest) == (if e.key.Some? then [Stop(e.key.value, Rescale(e.color))] else []) + Prep(rest)
  {
    assert ([e] + rest)[0] == e;
    assert ([e] + rest)[1..] == rest;
  }

  lemma DivideMonotone(a: real, b: real, d: real)
    requires a <= b && d > 0.0
    ensures a / d <= b / d
  {
    var qa, qb := a / d, b / d;
    assert qa * d == a && qb * d == b;
  }

  /** The stops of an evenly spaced list, before sorting: colour i at i/(n-1), ascending. */
  lemma ListStops(colors: seq<Color>)
    requires |colors| > 1
    ensures var prepped := Prep(ListToMap(colors));
      && |prepped| == |colors|
      && (forall i :: 0 <= i < |colors| ==> prepped[i] == Stop(i as real / (|colors| - 1) as real, Rescale(colors[i])))
      && Sorted(prepped)
  {
    var n := |colors|;
    var d := (n - 1) as real;
    var es := ListToMap(colors);
    PrepAllKeyed(es);
    var prepped := Prep(es);
    forall i, j | 0 <= i < j < n
      ensures prepped[i].offset <= prepped[j].offset
    {
      assert prepped[i].offset == i as real / d && prepped[j].offset == j as real / d;
      DivideMonotone(i as real, j as real, d);
    }
  }

  /** The list's stops, scaled: stop i at 255*i/(n-1). */
  lemma ScaleListStops(prepped: seq<Stop>, colors: seq<Color>, d: real)
    requires |prepped| == |colors| && d != 0.0
    requires forall i :: 0 <= i < |prepped| ==> prepped[i] == Stop(i as real / d, Rescale(colors[i]))
    ensures forall i :: 0 <= i < |prepped| ==>
      ScaleOffsets(prepped)[i] == Stop(i as real / d * 255.0, Rescale(colors[i]))
  {
  }

  /**
   * Stops at i/(n-1) in list order, scaled: nothing is reordered, no boundary
   * stop is added, and stop i lands at 255*i/(n-1).
   */
  lemma NormalizeEvenlySpaced(prepped: seq<Stop>, colors: seq<Color>, d: real)
    requires |prepped| == |colors| > 1 && d == (|colors| - 1) as real
    requires forall i :: 0 <= i < |prepped| ==> prepped[i] == Stop(i as real / d, Rescale(colors[i]))
    requires Sorted(prepped)
    ensures |Normalize(prepped)| == |colors|
    ensures forall i :: 0 <= i < |colors| ==> Normalize(prepped)[i] == Stop(i as real / d * 255.0, Rescale(colors[i]))
  {
    assert prepped[0].offset == 0.0;
    assert prepped[|prepped| - 1].offset == 1.0 by {
      DivideSelf(d);
    }
    NormalizeCovered(prepped);
    ScaleListStops(prepped, colors, d);
  }

  /** Sorted stops that already reach 0 and 1 are only scaled. */
  lemma NormalizeCovered(prepped: seq<Stop>)
    requires prepped != [] && Sorted(prepped)
    requires prepped[0].offset == 0.0 && prepped[|prepped| - 1].offset == 1.0
    ensures Normalize(prepped) == ScaleOffsets(prepped)
  {
    SortSortedIsIdentity(prepped);
    var scaled := ScaleOffsets(prepped);
    assert scaled[0].offset == 0.0 && scaled[|scaled| - 1].offset == 255.0;
    AddBoundariesWhenCovered(scaled);
    calc {
      Normalize(prepped);
      AddBoundaries(ScaleOffsets(SortByOffset(prepped)));
      AddBoundaries(scaled);
      scaled;
    }
  }

  /**
   * A list of n > 1 colours normalises to exactly n stops, colour i at offset
   * 255*i/(n-1): nothing is reordered and no boundary stop is added.
   */
  lemma EvenlySpacedList(colors: seq<Color>)
    requires |colors| > 1
    ensures var stops := Normalize(Prep(ListToMap(colors)));
      && |stops| == |colors|
      && forall i :: 0 <= i < |colors| ==>
           stops[i] == Stop(i as real / (|colors| - 1) as real * 255.0, Rescale(colors[i]))
  {
    ListStops(colors);
    NormalizeEvenlySpaced(Prep(ListToMap(colors)), colors, (|colors| - 1) as real);
  }
}
