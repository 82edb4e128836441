/**
 * The gradient lookup-table builder: from a gradient specification to 256
 * RGBA entries (1024 bytes), each level interpolated between the two stops
 * that bracket it.
 */
module GradientGenerator {
  import opened Wrappers
  import opened JsNumber
  import opened ColorStops

  /** The four bytes of a table entry, in byte order. */
  datatype Channel = Red | Green | Blue | Alpha

  function ChannelOf(c: Channels, ch: Channel): real {
    match ch
    case Red => c.red
    case Green => c.green
    case Blue => c.blue
    case Alpha => c.alpha
  }

  /** Where a channel sits within a table entry. */
  function Index(ch: Channel): (k: nat)
    ensures k < 4
  {
    match ch
    case Red => 0
    case Green => 1
    case Blue => 2
    case Alpha => 3
  }

  /** A stop's four channels, each rounded and clamped as calcChannel does. */
  function StopLevels(c: Channels): (e: seq<Byte>)
    ensures |e| == 4
  {
    [Level(c.red), Level(c.green), Level(c.blue), Level(c.alpha)]
  }

  const RedColor := Color(255.0, 0.0, 0.0, 1.0)
  const YellowColor := Color(255.0, 255.0, 0.0, 1.0)
  const BlueColor := Color(0.0, 0.0, 255.0, 1.0)

  /**
   * The gradient used when none is given: blue at 0, yellow at 0.5, red at 1.
   * The object literal lists 1, 0.5, 0, but Object.entries gives the
   * integer-like keys first, ascending, and then the others in the order
   * written: 0, 1, 0.5.
   */
  const DefaultGradientStops := StopMap([
    StopEntry(Some(0.0), BlueColor),
    StopEntry(Some(1.0), RedColor),
    StopEntry(Some(0.5), YellowColor)
  ])

  /**
   * One channel of the level between two stops (calcChannel): each stop is
   * weighted by the distance to the other one, the quotient rounded with
   * Math.round and clamped to 0..255.
   */
  function CalcChannel(ch: Channel, stop1: Stop, stop2: Stop, d1: real, d2: real, total: real): (b: Byte)
    requires total != 0.0
    ensures d1 == 0.0 && d2 == total ==> b == Level(ChannelOf(stop1.channels, ch))
    ensures d2 == 0.0 && d1 == total ==> b == Level(ChannelOf(stop2.channels, ch))
  {
    WeightedMeanAtStop(ChannelOf(stop1.channels, ch), ChannelOf(stop2.channels, ch), total);
    Level(WeightedMean(ChannelOf(stop1.channels, ch), ChannelOf(stop2.channels, ch), d1, d2, total))
  }

  /**
   * The sum of the two stops' influences over the total distance. Two equal
   * values weighted over the whole distance give that value.
   */
  function WeightedMean(c1: real, c2: real, d1: real, d2: real, total: real): (m: real)
    requires total != 0.0
    ensures c1 == c2 && total == d1 + d2 ==> m == c1
  {
    assert c1 == c2 && total == d1 + d2 ==> c1 * d2 + c2 * d1 == c1 * total;
    (c1 * d2 + c2 * d1) / total
  }

  /** The first index from `from` on whose stop reaches `x`. */
  function FirstReaching(stops: seq<Stop>, x: real, from: nat): (hi: nat)
    requires 1 <= from < |stops| && stops[|stops| - 1].offset >= x
    ensures from <= hi < |stops| && stops[hi].offset >= x
    ensures forall j :: from <= j < hi ==> stops[j].offset < x
    decreases |stops| - from
  {
    if stops[from].offset >= x then from else FirstReaching(stops, x, from + 1)
  }

  /**
   * Where the following-stop cursor stands when level i is computed: the first
   * stop after the first one whose offset is at least i. The preceding-stop
   * cursor stands just before it, and the two stops bracket i.
   */
  function Bracket(stops: seq<Stop>, i: int): (hi: nat)
    requires WellFormed(stops) && 0 <= i <= 255
    ensures 1 <= hi < |stops|
    ensures stops[hi - 1].offset <= i as real <= stops[hi].offset
    ensures forall j :: 1 <= j < hi ==> stops[j].offset < i as real
  {
    FirstReaching(stops, i as real, 1)
  }

  /** The four bytes of entry i of the table built from `stops`. */
  function Entry(stops: seq<Stop>, i: int): (e: seq<Byte>)
    requires WellFormed(stops) && 0 <= i <= 255
    ensures |e| == 4
    ensures var hi := Bracket(stops, i);
      stops[hi - 1].offset == stops[hi].offset ==> e[1] == 0 && e[2] == 0 && e[3] == 0
  {
    var hi := Bracket(stops, i);
    var stop1, stop2 := stops[hi - 1], stops[hi];
    var d1 := Abs(i as real - stop1.offset);
    var d2 := Abs(stop2.offset - i as real);
    var total := d1 + d2;
    if total == 0.0 then
      // all four means are stored into the entry's first byte; alpha, stored last, stays
      [ToUint8Clamp((stop1.channels.alpha + stop2.channels.alpha) / 2.0), 0, 0, 0]
    else
      [ CalcChannel(Red, stop1, stop2, d1, d2, total),
        CalcChannel(Green, stop1, stop2, d1, d2, total),
        CalcChannel(Blue, stop1, stop2, d1, d2, total),
        CalcChannel(Alpha, stop1, stop2, d1, d2, total) ]
  }

  /** The 256 entries laid end to end. */
  function TableOf(stops: seq<Stop>): (t: seq<Byte>)
    requires WellFormed(stops)
    ensures |t| == 1024
  {
    seq(1024, k requires 0 <= k < 1024 => Entry(stops, k / 4)[k % 4])
  }

  /** The four bytes of level i in a table. */
  function EntryOf(table: seq<Byte>, i: int): (e: seq<Byte>)
    requires |table| == 1024 && 0 <= i <= 255
    ensures |e| == 4
  {
    table[4 * i..4 * i + 4]
  }

  /** The table of a gradient with no usable stop. */
  function Blank(): (t: seq<Byte>)
    ensures |t| == 1024 && forall k :: 0 <= k < 1024 ==> t[k] == 0
  {
    seq(1024, _ => 0)
  }

  /** The table generateGradient returns for a gradient specification. */
  function GradientTable(spec: GradientStops): (t: seq<Byte>)
    ensures |t| == 1024
    decreases if spec.ColorList? then 1 else 0
  {
    match spec
    case ColorList(colors) =>
      if |colors| == 1 then GradientTable(StopMap([StopEntry(Some(0.0), colors[0])]))
      else GradientTable(StopMap(ListToMap(colors)))
    case StopMap(entries) =>
      var prepped := Prep(entries);
      if prepped == [] then Blank() else TableOf(Normalize(prepped))
  }

  /** generateGradient: a missing specification means the default one. */
  method GenerateGradient(colorStops: Option<GradientStops>) returns (table: seq<Byte>)
    ensures table == GradientTable(colorStops.GetOr(DefaultGradientStops))
  {
    if colorStops.None? {
      table := GenerateTable(DefaultGradientStops);
    } else {
      table := GenerateTable(colorStops.value);
    }
  }

  /** generateGradient once a specification is present: a colour list is rewritten as a map first. */
  method GenerateTable(spec: GradientStops) returns (table: seq<Byte>)
    ensures table == GradientTable(spec)
    decreases if spec.ColorList? then 1 else 0
  {
    match spec
    case ColorList(colors) =>
      if |colors| == 1 {
        table := GenerateTable(StopMap([StopEntry(Some(0.0), colors[0])]));
      } else {
        table := GenerateTable(StopMap(ListToMap(colors)));
      }
    case StopMap(entries) =>
      var result := new Byte[1024](_ => 0);
      var stops := Prep(entries);
      if stops == [] {
        table := result[..];
        assert table == Blank();
        return;
      }
      stops := NormalizeStops(stops);
      FillTable(stops, result);
      table := result[..];
  }

  /**
   * Sorts the stops by offset, multiplies every offset by 255 (the `forEach`)
   * and adds the transparent boundary stops (the `unshift` and `push`).
   */
  method NormalizeStops(prepped: seq<Stop>) returns (stops: seq<Stop>)
    requires prepped != []
    ensures stops == Normalize(prepped)
  {
    stops := SortByOffset(prepped);
    stops := RescaleOffsets(stops);
    ghost var scaled := stops;
    if stops[0].offset > 0.0 {
      stops := [Stop(0.0, TransparentBlack)] + stops;
    }
    if stops[|stops| - 1].offset < 255.0 {
      stops := stops + [Stop(255.0, TransparentBlack)];
    }
    assert stops == AddBoundaries(scaled);
  }

  /** The `forEach` that multiplies every offset by 255, one stop at a time. */
  method RescaleOffsets(sorted: seq<Stop>) returns (stops: seq<Stop>)
    ensures stops == ScaleOffsets(sorted)
  {
    stops := sorted;
    var k := 0;
    while k < |stops|
      invariant 0 <= k <= |stops| == |sorted|
      invariant stops == ScaleOffsets(sorted)[..k] + sorted[k..]
    {
      stops := stops[k := Stop(stops[k].offset * 255.0, stops[k].channels)];
      k := k + 1;
    }
  }

  /**
   * The interpolation loop: two cursors walk forward through the stops while
   * the level runs from 0 to 255, and each level's entry is written into the
   * zero-filled table.
   */
  method FillTable(stops: seq<Stop>, result: array<Byte>)
    requires WellFormed(stops)
    requires result.Length == 1024 && forall k :: 0 <= k < 1024 ==> result[k] == 0
    modifies result
    ensures result[..] == TableOf(stops)
  {
    var lo, hi := 0, 1;
    for i := 0 to 256
      invariant hi == lo + 1 && hi < |stops|
      invariant forall j :: 1 <= j < hi ==> stops[j].offset < i as real
      invariant result[..4 * i] == TableOf(stops)[..4 * i]
      invariant forall k :: 4 * i <= k < 1024 ==> result[k] == 0
    {
      ghost var before := result[..];
      lo, hi := Advance(stops, i, lo, hi);
      WriteEntry(stops, result, i, lo, hi);
      EntryStep(stops, before, result[..], i);
    }
    assert result[..] == result[..4 * 256];
  }

  /** Writing entry i behind the first i entries extends the finished prefix by one entry. */
  lemma EntryStep(stops: seq<Stop>, before: seq<Byte>, after: seq<Byte>, i: int)
    requires WellFormed(stops) && 0 <= i <= 255 && |before| == |after| == 1024
    requires before[..4 * i] == TableOf(stops)[..4 * i]
    requires forall k :: 4 * i <= k < 1024 ==> before[k] == 0
    requires after[4 * i..4 * i + 4] == Entry(stops, i)
    requires forall k :: 0 <= k < 1024 && !(4 * i <= k < 4 * i + 4) ==> after[k] == before[k]
    ensures after[..4 * (i + 1)] == TableOf(stops)[..4 * (i + 1)]
    ensures forall k :: 4 * (i + 1) <= k < 1024 ==> after[k] == 0
  {
    forall k | 0 <= k < 4 * i + 4
      ensures after[k] == TableOf(stops)[k]
    {
      if k < 4 * i {
        assert after[k] == before[..4 * i][k];
      } else {
        TableAt(stops, i, k - 4 * i);
        assert after[k] == after[4 * i..4 * i + 4][k - 4 * i];
      }
    }
  }

  /**
   * Moves the two cursors forward, never back, until the following stop
   * reaches level i; they then stand where Bracket says.
   */
  method Advance(stops: seq<Stop>, i: int, lo0: nat, hi0: nat) returns (lo: nat, hi: nat)
    requires WellFormed(stops) && 0 <= i <= 255
    requires hi0 == lo0 + 1 && hi0 < |stops|
    requires forall j :: 1 <= j < hi0 ==> stops[j].offset < i as real
    ensures hi == Bracket(stops, i) && lo == hi - 1
    ensures lo0 <= lo && hi0 <= hi
  {
    lo, hi := lo0, hi0;
    while i as real > stops[hi].offset
      invariant hi == lo + 1 && hi0 <= hi < |stops|
      invariant forall j :: 1 <= j < hi ==> stops[j].offset < i as real
      decreases |stops| - hi
    {
      lo := lo + 1;
      hi := hi + 1;
    }
    BracketUnique(stops, i, hi);
  }

  /** Writes level i's bytes, given the two cursors that bracket it. */
  method WriteEntry(stops: seq<Stop>, result: array<Byte>, i: int, lo: nat, hi: nat)
    requires WellFormed(stops) && 0 <= i <= 255
    requires hi == Bracket(stops, i) && lo == hi - 1
    requires result.Length == 1024 && forall k :: 4 * i <= k < 4 * i + 4 ==> result[k] == 0
    modifies result
    ensures result[4 * i..4 * i + 4] == Entry(stops, i)
    ensures forall k :: 0 <= k < 1024 && !(4 * i <= k < 4 * i + 4) ==> result[k] == old(result[k])
  {
    var stop1, stop2 := stops[lo], stops[hi];
    var d1 := Abs(i as real - stop1.offset);
    var d2 := Abs(stop2.offset - i as real);
    var total := d1 + d2;
    var ri := i * 4;
    ghost var e := Entry(stops, i);
    if total == 0.0 {
      assert e == [ToUint8Clamp((stop1.channels.alpha + stop2.channels.alpha) / 2.0), 0, 0, 0];
      result[ri + 0] := ToUint8Clamp((stop1.channels.red + stop2.channels.red) / 2.0);
      result[ri + 0] := ToUint8Clamp((stop1.channels.green + stop2.channels.green) / 2.0);
      result[ri + 0] := ToUint8Clamp((stop1.channels.blue + stop2.channels.blue) / 2.0);
      result[ri + 0] := ToUint8Clamp((stop1.channels.alpha + stop2.channels.alpha) / 2.0);
    } else {
      var red := CalcChannel(Red, stop1, stop2, d1, d2, total);
      var green := CalcChannel(Green, stop1, stop2, d1, d2, total);
      var blue := CalcChannel(Blue, stop1, stop2, d1, d2, total);
      var alpha := CalcChannel(Alpha, stop1, stop2, d1, d2, total);
      assert e == [red, green, blue, alpha];
      StoreByte(red);
      StoreByte(green);
      StoreByte(blue);
      StoreByte(alpha);
      result[ri + 0] := ToUint8Clamp(red as real);
      result[ri + 1] := ToUint8Clamp(green as real);
      result[ri + 2] := ToUint8Clamp(blue as real);
      result[ri + 3] := ToUint8Clamp(alpha as real);
    }
  }

  /** Byte c of entry i sits at index 4i + c of the table. */
  lemma TableAt(stops: seq<Stop>, i: int, c: int)
    requires WellFormed(stops) && 0 <= i <= 255 && 0 <= c < 4
    ensures TableOf(stops)[4 * i + c] == Entry(stops, i)[c]
  {
    var k := 4 * i + c;
    assert k / 4 == i && k % 4 == c;
  }

  /** The cursor is determined: only one index brackets level i as Bracket does. */
  lemma BracketUnique(stops: seq<Stop>, i: int, hi: nat)
    requires WellFormed(stops) && 0 <= i <= 255
    requires 1 <= hi < |stops| && stops[hi].offset >= i as real
    requires forall j :: 1 <= j < hi ==> stops[j].offset < i as real
    ensures hi == Bracket(stops, i)
  {
  }

  /** A mean weighted by non-negative distances lies between the two values. */
  lemma WeightedMeanBetween(a: real, b: real, d1: real, d2: real, total: real)
    requires d1 >= 0.0 && d2 >= 0.0 && total == d1 + d2 && total > 0.0
    ensures var m := WeightedMean(a, b, d1, d2, total);
      (a <= b ==> a <= m <= b) && (b <= a ==> b <= m <= a)
  {
    var m := WeightedMean(a, b, d1, d2, total);
    assert m * total == a * d2 + b * d1;
    if a <= b {
      ScaledMeanBetween(a, b, d2, d1, total, m * total);
      CancelPositive(a, m, total);
      CancelPositive(m, b, total);
    } else {
      ScaledMeanBetween(b, a, d1, d2, total, m * total);
      CancelPositive(b, m, total);
      CancelPositive(m, a, total);
    }
  }

  /** Before dividing by the total: the weighted sum lies between the scaled values. */
  lemma ScaledMeanBetween(lo: real, hi: real, wl: real, wh: real, total: real, sum: real)
    requires lo <= hi && wl >= 0.0 && wh >= 0.0 && total == wl + wh && sum == lo * wl + hi * wh
    ensures lo * total <= sum <= hi * total
  {
    ScaleMonotone(lo, hi, wl);
    ScaleMonotone(lo, hi, wh);
    assert lo * total == lo * wl + lo * wh && hi * total == hi * wl + hi * wh;
  }

  lemma ScaleMonotone(x: real, y: real, z: real)
    requires x <= y && z >= 0.0
    ensures x * z <= y * z
  {
    assert y * z - x * z == (y - x) * z;
  }

  lemma CancelPositive(x: real, y: real, t: real)
    requires t > 0.0 && x * t <= y * t
    ensures x <= y
  {
    assert (y - x) * t == y * t - x * t;
  }

  /** calcChannel's result lies between the rounded channels of its two stops. */
  lemma CalcChannelBetween(ch: Channel, stop1: Stop, stop2: Stop, d1: real, d2: real, total: real)
    requires d1 >= 0.0 && d2 >= 0.0 && total == d1 + d2 && total > 0.0
    ensures var c1 := ChannelOf(stop1.channels, ch);
      var c2 := ChannelOf(stop2.channels, ch);
      var e := CalcChannel(ch, stop1, stop2, d1, d2, total);
      (c1 <= c2 ==> Level(c1) <= e <= Level(c2)) && (c2 <= c1 ==> Level(c2) <= e <= Level(c1))
  {
    var c1 := ChannelOf(stop1.channels, ch);
    var c2 := ChannelOf(stop2.channels, ch);
    var m := WeightedMean(c1, c2, d1, d2, total);
    WeightedMeanBetween(c1, c2, d1, d2, total);
    if c1 <= c2 {
      LevelMonotone(c1, m);
      LevelMonotone(m, c2);
    } else {
      LevelMonotone(c2, m);
      LevelMonotone(m, c1);
    }
  }

  /** Away from a duplicated offset, byte c of entry i is calcChannel of the bracketing stops. */
  lemma EntryChannel(stops: seq<Stop>, i: int, ch: Channel)
    requires WellFormed(stops) && 0 <= i <= 255
    requires var hi := Bracket(stops, i); stops[hi - 1].offset < stops[hi].offset
    ensures var hi := Bracket(stops, i);
      var d1 := i as real - stops[hi - 1].offset;
      var d2 := stops[hi].offset - i as real;
      && d1 >= 0.0 && d2 >= 0.0 && d1 + d2 > 0.0
      && Entry(stops, i)[Index(ch)] == CalcChannel(ch, stops[hi - 1], stops[hi], d1, d2, d1 + d2)
  {
    var hi := Bracket(stops, i);
    var d1 := i as real - stops[hi - 1].offset;
    var d2 := stops[hi].offset - i as real;
    assert Abs(i as real - stops[hi - 1].offset) == d1 && Abs(stops[hi].offset - i as real) == d2;
    match ch
    case Red =>
    case Green =>
    case Blue =>
    case Alpha =>
  }

  /**
   * Away from a duplicated offset, every channel of entry i lies between the
   * rounded channels of the two stops that bracket i.
   */
  lemma EntryBetweenStops(stops: seq<Stop>, i: int, ch: Channel)
    requires WellFormed(stops) && 0 <= i <= 255
    ensures var hi := Bracket(stops, i);
      var c1 := ChannelOf(stops[hi - 1].channels, ch);
      var c2 := ChannelOf(stops[hi].channels, ch);
      var e := Entry(stops, i)[Index(ch)];
      stops[hi - 1].offset < stops[hi].offset ==>
        (c1 <= c2 ==> Level(c1) <= e <= Level(c2)) && (c2 <= c1 ==> Level(c2) <= e <= Level(c1))
  {
    var hi := Bracket(stops, i);
    if stops[hi - 1].offset < stops[hi].offset {
      EntryChannel(stops, i, ch);
      var d1 := i as real - stops[hi - 1].offset;
      var d2 := stops[hi].offset - i as real;
      CalcChannelBetween(ch, stops[hi - 1], stops[hi], d1, d2, d1 + d2);
    }
  }

  /** At one of its two stops, the weighted mean is that stop's value. */
  lemma WeightedMeanAtStop(a: real, b: real, d: real)
    requires d != 0.0
    ensures WeightedMean(a, b, 0.0, d, d) == a && WeightedMean(a, b, d, 0.0, d) == b
  {
    assert (a * d + b * 0.0) / d == a * d / d;
    assert (a * 0.0 + b * d) / d == b * d / d;
  }

  /** The entry of a level whose following stop sits exactly on it is that stop, rounded. */
  lemma EntryOnFollowingStop(stops: seq<Stop>, i: int)
    requires WellFormed(stops) && 0 <= i <= 255
    requires var hi := Bracket(stops, i); stops[hi - 1].offset < stops[hi].offset == i as real
    ensures Entry(stops, i) == StopLevels(stops[Bracket(stops, i)].channels)
  {
    var hi := Bracket(stops, i);
    var d1 := i as real - stops[hi - 1].offset;
    forall ch
      ensures Entry(stops, i)[Index(ch)] == Level(ChannelOf(stops[hi].channels, ch))
    {
      EntryChannel(stops, i, ch);
      WeightedMeanAtStop(ChannelOf(stops[hi - 1].channels, ch), ChannelOf(stops[hi].channels, ch), d1);
    }
    SameLevels(Entry(stops, i), stops[hi].channels);
  }

  /** The entry of a level whose preceding stop sits exactly on it is that stop, rounded. */
  lemma EntryOnPrecedingStop(stops: seq<Stop>, i: int)
    requires WellFormed(stops) && 0 <= i <= 255
    requires var hi := Bracket(stops, i); i as real == stops[hi - 1].offset < stops[hi].offset
    ensures Entry(stops, i) == StopLevels(stops[Bracket(stops, i) - 1].channels)
  {
    var hi := Bracket(stops, i);
    var d2 := stops[hi].offset - i as real;
    forall ch
      ensures Entry(stops, i)[Index(ch)] == Level(ChannelOf(stops[hi - 1].channels, ch))
    {
      EntryChannel(stops, i, ch);
      WeightedMeanAtStop(ChannelOf(stops[hi - 1].channels, ch), ChannelOf(stops[hi].channels, ch), d2);
    }
    SameLevels(Entry(stops, i), stops[hi - 1].channels);
  }

  /** Four bytes that agree channel by channel with a stop's levels are those levels. */
  lemma SameLevels(e: seq<Byte>, c: Channels)
    requires |e| == 4 && forall ch :: e[Index(ch)] == Level(ChannelOf(c, ch))
    ensures e == StopLevels(c)
  {
    assert e[Index(Red)] == e[0] && e[Index(Green)] == e[1] && e[Index(Blue)] == e[2] && e[Index(Alpha)] == e[3];
  }

  /**
   * With distinct offsets, the entry of a level that a stop sits on is that
   * stop's colour, each channel rounded and clamped.
   */
  lemma EntryAtStop(stops: seq<Stop>, k: nat, i: int)
    requires WellFormed(stops) && StrictlySorted(stops) && 0 <= i <= 255
    requires k < |stops| && stops[k].offset == i as real
    ensures Entry(stops, i) == StopLevels(stops[k].channels)
  {
    if k == 0 {
      BracketUnique(stops, i, 1);
      EntryOnPrecedingStop(stops, i);
    } else {
      BracketUnique(stops, i, k);
      EntryOnFollowingStop(stops, i);
    }
  }

  /** The cursor never moves back: a higher level is bracketed at or after a lower one's stop. */
  lemma BracketMonotone(stops: seq<Stop>, i: int, j: int)
    requires WellFormed(stops) && 0 <= i <= j <= 255
    ensures Bracket(stops, i) <= Bracket(stops, j)
  {
  }

  /** A gradient with no stop whose key parses (no keys at all included) gives an all-zero table. */
  lemma NoUsableStopIsBlank(spec: GradientStops)
    requires spec.StopMap? ==> forall k :: 0 <= k < |spec.entries| ==> spec.entries[k].key.None?
    requires spec.ColorList? ==> spec.colors == []
    ensures forall k :: 0 <= k < 1024 ==> GradientTable(spec)[k] == 0
  {
    if spec.ColorList? {
      assert ListToMap([]) == [];
      assert GradientTable(spec) == GradientTable(StopMap([]));
    }
  }

  /** Entry i of the table of a keyed gradient, built from its normalised stops. */
  lemma KeyedEntry(entries: seq<StopEntry>, i: int)
    requires Prep(entries) != [] && 0 <= i <= 255
    ensures EntryOf(GradientTable(StopMap(entries)), i) == Entry(Normalize(Prep(entries)), i)
  {
    var stops := Normalize(Prep(entries));
    var t := GradientTable(StopMap(entries));
    assert t == TableOf(stops);
    forall c | 0 <= c < 4
      ensures t[4 * i..4 * i + 4][c] == Entry(stops, i)[c]
    {
      TableAt(stops, i, c);
    }
  }

  /** When every offset is above 0, entry 0 is transparent black. */
  lemma TransparentStart(entries: seq<StopEntry>)
    requires Prep(entries) != [] && forall s :: s in Prep(entries) ==> s.offset > 0.0
    ensures EntryOf(GradientTable(StopMap(entries)), 0) == [0, 0, 0, 0]
  {
    var stops := Normalize(Prep(entries));
    NormalizeStartsTransparent(Prep(entries));
    BracketUnique(stops, 0, 1);
    EntryOnPrecedingStop(stops, 0);
    KeyedEntry(entries, 0);
  }

  /** When every offset is below 1, entry 255 is transparent black. */
  lemma TransparentEnd(entries: seq<StopEntry>)
    requires Prep(entries) != [] && forall s :: s in Prep(entries) ==> s.offset < 1.0
    ensures EntryOf(GradientTable(StopMap(entries)), 255) == [0, 0, 0, 0]
  {
    LastEntryTransparent(Prep(entries));
    KeyedEntry(entries, 255);
  }

  /** Stops all below 1 normalise to a list whose level 255 is transparent black. */
  lemma LastEntryTransparent(prepped: seq<Stop>)
    requires prepped != [] && forall s :: s in prepped ==> s.offset < 1.0
    ensures Entry(Normalize(prepped), 255) == [0, 0, 0, 0]
  {
    NormalizeEndsTransparent(prepped);
    TransparentTail(Normalize(prepped));
  }

  /** Stops that end in transparent black at 255, with no other stop there, end the table in it. */
  lemma TransparentTail(stops: seq<Stop>)
    requires EndsTransparent(stops)
    ensures Entry(stops, 255) == [0, 0, 0, 0]
  {
    BracketUnique(stops, 255, |stops| - 1);
    EntryOnFollowingStop(stops, 255);
  }

  /** A one-colour list gives the same table as that colour keyed 0. */
  lemma SingleColorIsMap(c: Color)
    ensures GradientTable(ColorList([c])) == GradientTable(StopMap([StopEntry(Some(0.0), c)]))
  {
  }

  /** The stops of a one-colour list: the colour at 0 and transparent black at 255. */
  lemma SingleColorStops(c: Color)
    ensures Prep([StopEntry(Some(0.0), c)]) != []
    ensures Normalize(Prep([StopEntry(Some(0.0), c)])) == [Stop(0.0, Rescale(c)), Stop(255.0, TransparentBlack)]
  {
    var first := Stop(0.0, Rescale(c));
    PrepAllKeyed([StopEntry(Some(0.0), c)]);
    assert Prep([StopEntry(Some(0.0), c)]) == [first];
    SortSortedIsIdentity([first]);
    assert ScaleOffsets([first]) == [first];
    AddBoundariesShape([first]);
  }

  /** Weighting a value against 0 scales it by its share of the distance. */
  lemma WeightedMeanAgainstZero(a: real, d1: real, d2: real, total: real)
    requires total != 0.0
    ensures WeightedMean(a, 0.0, d1, d2, total) == a * d2 / total
  {
  }

  /** A colour's channels scaled by (255 - i)/255: the share left at level i of a fade to transparent black. */
  function Faded(c: Channels, i: int): Channels {
    Channels(c.red * (255 - i) as real / 255.0, c.green * (255 - i) as real / 255.0,
             c.blue * (255 - i) as real / 255.0, c.alpha * (255 - i) as real / 255.0)
  }

  lemma FadedChannel(c: Channels, i: int, ch: Channel)
    ensures ChannelOf(Faded(c, i), ch) == ChannelOf(c, ch) * (255 - i) as real / 255.0
  {
    match ch
    case Red =>
    case Green =>
    case Blue =>
    case Alpha =>
  }

  /**
   * A one-colour list fades from that colour at level 0 to transparent black at
   * level 255: its only stop sits at 0 and the boundary stop is added at 255.
   */
  lemma SingleColorFade(c: Color, i: int)
    requires 0 <= i <= 255
    ensures EntryOf(GradientTable(ColorList([c])), i) == StopLevels(Faded(Rescale(c), i))
  {
    var entries := [StopEntry(Some(0.0), c)];
    SingleColorIsMap(c);
    SingleColorStops(c);
    FadeEntry(Normalize(Prep(entries)), Rescale(c), i);
    KeyedEntry(entries, i);
  }

  /** Between a stop at 0 and transparent black at 255, level i is the stop's colour faded by (255 - i)/255. */
  lemma FadeEntry(stops: seq<Stop>, c: Channels, i: int)
    requires stops == [Stop(0.0, c), Stop(255.0, TransparentBlack)] && 0 <= i <= 255
    ensures WellFormed(stops)
    ensures Entry(stops, i) == StopLevels(Faded(c, i))
  {
    BracketUnique(stops, i, 1);
    forall ch
      ensures Entry(stops, i)[Index(ch)] == Level(ChannelOf(Faded(c, i), ch))
    {
      EntryChannel(stops, i, ch);
      WeightedMeanAgainstZero(ChannelOf(c, ch), i as real, (255 - i) as real, 255.0);
      FadedChannel(c, i, ch);
    }
    SameLevels(Entry(stops, i), Faded(c, i));
  }

  /** Stops that are already in order are only scaled and given their boundary stops. */
  lemma NormalizeSorted(prepped: seq<Stop>)
    requires prepped != [] && Sorted(prepped)
    ensures Normalize(prepped) == AddBoundaries(ScaleOffsets(prepped))
  {
    SortSortedIsIdentity(prepped);
  }

  /** When both bracketing stops sit on level i, only the alpha mean survives, in byte 0. */
  lemma EntryOnDuplicateOffset(stops: seq<Stop>, i: int)
    requires WellFormed(stops) && 0 <= i <= 255
    requires var hi := Bracket(stops, i); stops[hi - 1].offset == i as real == stops[hi].offset
    ensures i == 0 && Bracket(stops, i) == 1
    ensures var hi := Bracket(stops, i);
      Entry(stops, i) == [ToUint8Clamp((stops[hi - 1].channels.alpha + stops[hi].channels.alpha) / 2.0), 0, 0, 0]
  {
  }

  /** Two stops at offset 0, in order: transparent black is added at 255 only. */
  lemma TwoStopsAtZero(p: seq<Stop>, c1: Color, c2: Color)
    requires p == [Stop(0.0, Rescale(c1)), Stop(0.0, Rescale(c2))]
    ensures Normalize(p) == p + [Stop(255.0, TransparentBlack)]
  {
    NormalizeSorted(p);
    assert ScaleOffsets(p) == p;
    AddBoundariesShape(p);
  }

  /** Two stops at the same offset 0: they come first, in order, then transparent black at 255. */
  lemma DuplicateOffsetStops(c1: Color, c2: Color)
    ensures var entries := [StopEntry(Some(0.0), c1), StopEntry(Some(0.0), c2)];
      && Prep(entries) == [Stop(0.0, Rescale(c1)), Stop(0.0, Rescale(c2))]
      && Normalize(Prep(entries))
         == [Stop(0.0, Rescale(c1)), Stop(0.0, Rescale(c2)), Stop(255.0, TransparentBlack)]
  {
    var entries := [StopEntry(Some(0.0), c1), StopEntry(Some(0.0), c2)];
    PrepAllKeyed(entries);
    TwoStopsAtZero(Prep(entries), c1, c2);
  }

  /**
   * Two keys that parse to the same offset (say "0" and "0.0") put level 0 on
   * both stops at once; the entry then holds only the stored mean of the two
   * alphas, in its red byte, and its other three bytes stay 0.
   */
  lemma DuplicateOffsetQuirk(entries: seq<StopEntry>, c1: Color, c2: Color)
    requires entries == [StopEntry(Some(0.0), c1), StopEntry(Some(0.0), c2)]
    ensures EntryOf(GradientTable(StopMap(entries)), 0) == [ToUint8Clamp((Rescale(c1).alpha + Rescale(c2).alpha) / 2.0), 0, 0, 0]
  {
    DuplicateOffsetStops(c1, c2);
    DuplicateLevelZero(Prep(entries), c1, c2);
    KeyedEntry(entries, 0);
  }

  /** Two prepared stops at 0: level 0 holds the stored alpha mean, then three zero bytes. */
  lemma DuplicateLevelZero(p: seq<Stop>, c1: Color, c2: Color)
    requires p == [Stop(0.0, Rescale(c1)), Stop(0.0, Rescale(c2))]
    ensures Entry(Normalize(p), 0) == [ToUint8Clamp((Rescale(c1).alpha + Rescale(c2).alpha) / 2.0), 0, 0, 0]
  {
    TwoStopsAtZero(p, c1, c2);
    DuplicateEntry(Normalize(p), Rescale(c1), Rescale(c2));
  }

  /** Level 0 on two stops at 0: the stored alpha mean, then three zero bytes. */
  lemma DuplicateEntry(stops: seq<Stop>, a: Channels, b: Channels)
    requires stops == [Stop(0.0, a), Stop(0.0, b), Stop(255.0, TransparentBlack)]
    ensures WellFormed(stops)
    ensures Entry(stops, 0) == [ToUint8Clamp((a.alpha + b.alpha) / 2.0), 0, 0, 0]
  {
    BracketUnique(stops, 0, 1);
    EntryOnDuplicateOffset(stops, 0);
  }

  /** Opaque red and opaque blue both at 0: a red byte of 255 and an alpha byte of 0. */
  lemma DuplicateOffsetExample(entries: seq<StopEntry>)
    requires entries == [StopEntry(Some(0.0), RedColor), StopEntry(Some(0.0), BlueColor)]
    ensures EntryOf(GradientTable(StopMap(entries)), 0) == [255, 0, 0, 0]
  {
    DuplicateOffsetQuirk(entries, RedColor, BlueColor);
  }

  /** Stops at 0, 1 and 0.5, in that order, sort to 0, 0.5, 1: the last is inserted between the other two. */
  lemma SortDefaultOrder(b: Stop, r: Stop, y: Stop)
    requires b.offset < y.offset < r.offset
    ensures SortByOffset([b, r, y]) == [b, y, r]
  {
    assert [b, r, y][..2] == [b, r];
    SortTwo(b, r);
    InsertMiddle(b, r, y);
  }

  /** Two stops already in order sort to themselves. */
  lemma SortTwo(b: Stop, r: Stop)
    requires b.offset <= r.offset
    ensures SortByOffset([b, r]) == [b, r]
  {
    assert [b, r][..1] == [b];
    assert [b][..0] == [];
    InsertLast([b], r);
  }

  /** A stop between two sorted stops goes between them. */
  lemma InsertMiddle(b: Stop, r: Stop, y: Stop)
    requires b.offset <= y.offset < r.offset
    ensures Insert([b, r], y) == [b, y, r]
  {
    InsertBehindFirst([b, r], y);
    assert [b, r][1..] == [r];
  }

  /** Stops at 0, 1 and 0.5, in that order, normalise to 0, 127.5 and 255 with nothing added. */
  lemma NormalizeDefaultOrder(b: Stop, r: Stop, y: Stop)
    requires b.offset == 0.0 && r.offset == 1.0 && y.offset == 0.5
    ensures Normalize([b, r, y]) == [Stop(0.0, b.channels), Stop(127.5, y.channels), Stop(255.0, r.channels)]
  {
    var scaled := [Stop(0.0, b.channels), Stop(127.5, y.channels), Stop(255.0, r.channels)];
    calc {
      Normalize([b, r, y]);
      AddBoundaries(ScaleOffsets(SortByOffset([b, r, y])));
      { SortDefaultOrder(b, r, y); }
      AddBoundaries(ScaleOffsets([b, y, r]));
      { ScaleThree([b, y, r], scaled); }
      AddBoundaries(scaled);
      { AddBoundariesWhenCovered(scaled); }
      scaled;
    }
  }

  /** Scaling three stops by 255, one by one. */
  lemma ScaleThree(s: seq<Stop>, r: seq<Stop>)
    requires |s| == 3 && |r| == 3
    requires forall k :: 0 <= k < 3 ==> r[k] == Stop(s[k].offset * 255.0, s[k].channels)
    ensures ScaleOffsets(s) == r
  {
  }

  /** Stops keyed 0, 1 and 0.5, in that order, normalise to 0, 127.5 and 255. */
  lemma DefaultStopsNormalized(blue: Color, red: Color, yellow: Color)
    ensures var entries := [StopEntry(Some(0.0), blue), StopEntry(Some(1.0), red), StopEntry(Some(0.5), yellow)];
      && Prep(entries) == [Stop(0.0, Rescale(blue)), Stop(1.0, Rescale(red)), Stop(0.5, Rescale(yellow))]
      && Normalize(Prep(entries)) == [Stop(0.0, Rescale(blue)), Stop(127.5, Rescale(yellow)), Stop(255.0, Rescale(red))]
  {
    var entries := [StopEntry(Some(0.0), blue), StopEntry(Some(1.0), red), StopEntry(Some(0.5), yellow)];
    var b, r, y := Stop(0.0, Rescale(blue)), Stop(1.0, Rescale(red)), Stop(0.5, Rescale(yellow));
    PrepAllKeyed(entries);
    assert Prep(entries) == [b, r, y];
    NormalizeDefaultOrder(b, r, y);
  }

  /** The default gradient starts at opaque blue and ends at opaque red. */
  lemma DefaultGradientEnds()
    ensures EntryOf(GradientTable(DefaultGradientStops), 0) == [0, 0, 255, 255]
    ensures EntryOf(GradientTable(DefaultGradientStops), 255) == [255, 0, 0, 255]
  {
    var entries := DefaultGradientStops.entries;
    DefaultStopsNormalized(BlueColor, RedColor, YellowColor);
    ThreeStopEnds(Normalize(Prep(entries)), Rescale(BlueColor), Rescale(YellowColor), Rescale(RedColor));
    KeyedEntry(entries, 0);
    KeyedEntry(entries, 255);
  }

  /** With stops at 0, 127.5 and 255, level 0 is the first stop and level 255 the last, rounded. */
  lemma ThreeStopEnds(stops: seq<Stop>, first: Channels, middle: Channels, last: Channels)
    requires stops == [Stop(0.0, first), Stop(127.5, middle), Stop(255.0, last)]
    ensures WellFormed(stops)
    ensures Entry(stops, 0) == StopLevels(first) && Entry(stops, 255) == StopLevels(last)
  {
    BracketUnique(stops, 0, 1);
    EntryOnPrecedingStop(stops, 0);
    BracketUnique(stops, 255, 2);
    EntryOnFollowingStop(stops, 255);
  }
}
