/** The Wi-Fi channel plan: for each channel number its centre frequency `Fc`, its bandwidth
    `BW` and its band edges `fmin`/`fmax`, all in MHz (iwscanlog.py, `wifi_channel_plan`).
    The table is built exactly as the tool builds it, from five arithmetic sub-bands with
    channels 70..94 removed, and is then shown equal to a closed-form description. */
module ChannelPlan {
  import opened Wrappers

  /** A plan row before its band edges are added. */
  datatype Row = Row(channel: int, fc: int, bw: int)

  datatype Entry = Entry(channel: int, fc: int, bw: int, fmin: int, fmax: int)

  /** Channels `first, first + step, ...` up to `last` (`np.arange(first, last + 1, step)`),
      each centred at `fc0 + (channel - first) * 5` with bandwidth `bw`. */
  function SubBand(first: int, last: int, step: int, fc0: int, bw: int): seq<Row>
    requires 0 < step && first <= last
  {
    seq((last - first) / step + 1, k => var ch := first + k * step; Row(ch, fc0 + (ch - first) * 5, bw))
  }

  /** The tool's `df0` .. `df4`: 2.4 GHz, then the 5 GHz 20, 40, 80 and 160 MHz channels. */
  function Band24(): seq<Row> { SubBand(1, 14, 1, 2412, 20) }
  function Band20(): seq<Row> { SubBand(32, 144, 4, 5160, 20) }
  function Band40(): seq<Row> { SubBand(38, 142, 8, 5190, 40) }
  function Band80(): seq<Row> { SubBand(42, 138, 16, 5210, 80) }
  function Band160(): seq<Row> { SubBand(50, 114, 32, 5250, 160) }

  /** `pd.concat([df0, df1, df2, df3, df4])`. */
  function Bands(): seq<Row>
  {
    Band24() + Band20() + Band40() + Band80() + Band160()
  }

  /** The removed channels, "nothing between 5350-5470 MHz". */
  predicate InGap(channel: int)
  {
    70 <= channel <= 94
  }

  /** The rows outside the gap, in their original order. */
  function DropGap(rows: seq<Row>): (r: seq<Row>)
    ensures forall x :: x in r <==> x in rows && !InGap(x.channel)
  {
    if rows == [] then []
    else if InGap(rows[0].channel) then DropGap(rows[1..])
    else [rows[0]] + DropGap(rows[1..])
  }

  /** Adds `fmin = Fc - BW/2` and `fmax = Fc + BW/2` to every row. */
  function WithEdges(rows: seq<Row>): seq<Entry>
  {
    seq(|rows|, i requires 0 <= i < |rows| =>
      Entry(rows[i].channel, rows[i].fc, rows[i].bw, rows[i].fc - rows[i].bw / 2, rows[i].fc + rows[i].bw / 2))
  }

  /** The plan, in the order the tool's DataFrame holds it. */
  function Plan(): seq<Entry>
  {
    WithEdges(DropGap(Bands()))
  }

  // ---------------------------------------------------------------------------------
  // Closed form

  /** The channels of the five sub-bands, before the gap is removed. */
  predicate InBands(c: int)
  {
    (1 <= c <= 14) || (32 <= c <= 144 && c % 4 == 0) || (38 <= c <= 142 && c % 8 == 6)
    || (42 <= c <= 138 && c % 16 == 10) || (50 <= c <= 114 && c % 32 == 18)
  }

  predicate InPlan(c: int)
  {
    InBands(c) && !InGap(c)
  }

  /** `Fc = 2407 + 5·ch` at 2.4 GHz and `Fc = 5000 + 5·ch` in every 5 GHz sub-band. */
  function RefFc(c: int): int
  {
    if c <= 14 then 2407 + 5 * c else 5000 + 5 * c
  }

  /** The width follows from the channel's residue: 20 MHz at 2.4 GHz and for multiples
      of 4, then 40, 80 and 160 MHz. */
  function RefBw(c: int): int
  {
    if c <= 14 || c % 4 == 0 then 20 else if c % 8 == 6 then 40 else if c % 16 == 10 then 80 else 160
  }

  function RefEntry(c: int): Entry
  {
    Entry(c, RefFc(c), RefBw(c), RefFc(c) - RefBw(c) / 2, RefFc(c) + RefBw(c) / 2)
  }

  /** A row of a sub-band is its `k`-th channel, for some `k` in range. */
  lemma SubBandRow(first: int, last: int, step: int, fc0: int, bw: int, r: Row)
    requires 0 < step && first <= last && r in SubBand(first, last, step, fc0, bw)
    ensures exists k :: 0 <= k <= (last - first) / step && r == Row(first + k * step, fc0 + k * step * 5, bw)
  {
    var b := SubBand(first, last, step, fc0, bw);
    var k :| 0 <= k < |b| && b[k] == r;
  }

  /** A row agrees with the closed form. */
  predicate RowOk(r: Row)
  {
    InBands(r.channel) && r == Row(r.channel, RefFc(r.channel), RefBw(r.channel))
  }

  lemma Band24Rows(r: Row) requires r in Band24() ensures RowOk(r) { SubBandRow(1, 14, 1, 2412, 20, r); }
  lemma Band20Rows(r: Row) requires r in Band20() ensures RowOk(r) { SubBandRow(32, 144, 4, 5160, 20, r); }
  lemma Band40Rows(r: Row) requires r in Band40() ensures RowOk(r) { SubBandRow(38, 142, 8, 5190, 40, r); }
  lemma Band80Rows(r: Row) requires r in Band80() ensures RowOk(r) { SubBandRow(42, 138, 16, 5210, 80, r); }
  lemma Band160Rows(r: Row) requires r in Band160() ensures RowOk(r) { SubBandRow(50, 114, 32, 5250, 160, r); }

  /** Every row of the sub-bands has a channel of the closed form and the closed-form
      centre and width. */
  lemma BandRow(r: Row)
    requires r in Bands()
    ensures RowOk(r)
  {
    if r in Band24() {
      Band24Rows(r);
    } else if r in Band20() {
      Band20Rows(r);
    } else if r in Band40() {
      Band40Rows(r);
    } else if r in Band80() {
      Band80Rows(r);
    } else {
      Band160Rows(r);
    }
  }

  /** The `k`-th channel of a sub-band is one of its rows. */
  lemma SubBandHas(first: int, last: int, step: int, fc0: int, bw: int, k: int)
    requires 0 < step && first <= last && 0 <= k <= (last - first) / step
    ensures Row(first + k * step, fc0 + k * step * 5, bw) in SubBand(first, last, step, fc0, bw)
  {
    assert SubBand(first, last, step, fc0, bw)[k] == Row(first + k * step, fc0 + k * step * 5, bw);
  }

  lemma Band24Has(c: int) requires 1 <= c <= 14 ensures Row(c, RefFc(c), RefBw(c)) in Band24() {
    SubBandHas(1, 14, 1, 2412, 20, c - 1);
  }
  lemma Band20Has(c: int) requires 32 <= c <= 144 && c % 4 == 0 ensures Row(c, RefFc(c), RefBw(c)) in Band20() {
    SubBandHas(32, 144, 4, 5160, 20, (c - 32) / 4);
  }
  lemma Band40Has(c: int) requires 38 <= c <= 142 && c % 8 == 6 ensures Row(c, RefFc(c), RefBw(c)) in Band40() {
    SubBandHas(38, 142, 8, 5190, 40, (c - 38) / 8);
  }
  lemma Band80Has(c: int) requires 42 <= c <= 138 && c % 16 == 10 ensures Row(c, RefFc(c), RefBw(c)) in Band80() {
    SubBandHas(42, 138, 16, 5210, 80, (c - 42) / 16);
  }
  lemma Band160Has(c: int) requires 50 <= c <= 114 && c % 32 == 18 ensures Row(c, RefFc(c), RefBw(c)) in Band160() {
    SubBandHas(50, 114, 32, 5250, 160, (c - 50) / 32);
  }

  /** Every closed-form channel has its row in the sub-bands. */
  lemma BandComplete(c: int)
    requires InBands(c)
    ensures Row(c, RefFc(c), RefBw(c)) in Bands()
  {
    if 1 <= c <= 14 {
      Band24Has(c);
    } else if 32 <= c <= 144 && c % 4 == 0 {
      Band20Has(c);
    } else if 38 <= c <= 142 && c % 8 == 6 {
      Band40Has(c);
    } else if 42 <= c <= 138 && c % 16 == 10 {
      Band80Has(c);
    } else {
      Band160Has(c);
    }
  }

  /** The plan is the closed form: an entry is in the plan exactly when it is the
      reference entry of a closed-form channel. */
  lemma PlanReference()
    ensures forall e :: e in Plan() ==> InPlan(e.channel) && e == RefEntry(e.channel)
    ensures forall c :: InPlan(c) ==> RefEntry(c) in Plan()
  {
    var d := DropGap(Bands());
    forall e | e in Plan()
      ensures InPlan(e.channel) && e == RefEntry(e.channel)
    {
      var i :| 0 <= i < |d| && Plan()[i] == e;
      assert d[i] in d;
      BandRow(d[i]);
    }
    forall c | InPlan(c)
      ensures RefEntry(c) in Plan()
    {
      BandComplete(c);
      var row := Row(c, RefFc(c), RefBw(c));
      assert row in d;
      var i :| 0 <= i < |d| && d[i] == row;
      assert Plan()[i] == RefEntry(c);
    }
  }

  lemma RefEntryBounds(c: int)
    requires InPlan(c)
    ensures var e := RefEntry(c);
      e.fmin < e.fc < e.fmax && e.fmax - e.fmin == e.bw && e.bw in {20, 40, 80, 160}
      && (e.fmax <= 5350 || e.fmin >= 5470)
  {
  }

  /** Plan bounds: `fmin < Fc < fmax`, `fmax - fmin == BW`, and `BW` is 20, 40, 80 or 160. */
  lemma PlanBounds()
    ensures forall e :: e in Plan() ==>
      e.fmin < e.fc < e.fmax && e.fmax - e.fmin == e.bw && e.bw in {20, 40, 80, 160}
  {
    PlanReference();
    forall e | e in Plan()
      ensures e.fmin < e.fc < e.fmax && e.fmax - e.fmin == e.bw && e.bw in {20, 40, 80, 160}
    {
      RefEntryBounds(e.channel);
    }
  }

  /** Plan gap: no channel in 70..94, and every entry lies wholly at or below 5350 MHz or
      at or above 5470 MHz. */
  lemma PlanGap()
    ensures forall e :: e in Plan() ==> !InGap(e.channel) && (e.fmax <= 5350 || e.fmin >= 5470)
  {
    PlanReference();
    forall e | e in Plan()
      ensures !InGap(e.channel) && (e.fmax <= 5350 || e.fmin >= 5470)
    {
      RefEntryBounds(e.channel);
    }
  }

  /** Distinct closed-form channels have distinct centres. */
  lemma RefFcInjective(a: int, b: int)
    requires InPlan(a) && InPlan(b) && RefFc(a) == RefFc(b)
    ensures a == b
  {
  }

  predicate DistinctChannels(rows: seq<Row>)
  {
    forall i, j :: 0 <= i < j < |rows| ==> rows[i].channel != rows[j].channel
  }

  lemma SubBandIncreasing(first: int, last: int, step: int, fc0: int, bw: int)
    requires 0 < step && first <= last
    ensures DistinctChannels(SubBand(first, last, step, fc0, bw))
  {
    var b := SubBand(first, last, step, fc0, bw);
    forall i, j | 0 <= i < j < |b|
      ensures b[i].channel != b[j].channel
    {
      assert b[j].channel - b[i].channel == (j - i) * step;
      MulPositive(j - i, step);
    }
  }

  lemma MulPositive(a: int, b: int)
    requires 0 < a && 0 < b
    ensures 0 < a * b
  {
  }

  lemma {:induction false} DistinctConcat(a: seq<Row>, b: seq<Row>)
    requires DistinctChannels(a) && DistinctChannels(b)
    requires forall x, y :: x in a && y in b ==> x.channel != y.channel
    ensures DistinctChannels(a + b)
  {
    var s := a + b;
    forall i, j | 0 <= i < j < |s|
      ensures s[i].channel != s[j].channel
    {
      if j < |a| {
        assert s[i] == a[i] && s[j] == a[j];
      } else if i >= |a| {
        assert s[i] == b[i - |a|] && s[j] == b[j - |a|];
      } else {
        assert s[i] == a[i] && s[j] == b[j - |a|];
        assert a[i] in a && b[j - |a|] in b;
      }
    }
  }

  lemma {:induction false} DropGapDistinct(rows: seq<Row>)
    requires DistinctChannels(rows)
    ensures DistinctChannels(DropGap(rows))
  {
    if rows != [] {
      var t := rows[1..];
      assert DistinctChannels(t) by {
        forall i, j | 0 <= i < j < |t|
          ensures t[i].channel != t[j].channel
        {
          assert t[i] == rows[i + 1] && t[j] == rows[j + 1];
        }
      }
      DropGapDistinct(t);
      if !InGap(rows[0].channel) {
        var d := DropGap(t);
        forall y | y in d
          ensures rows[0].channel != y.channel
        {
          var k :| 0 <= k < |t| && t[k] == y;
          assert rows[k + 1] == y;
        }
        DistinctConcat([rows[0]], d);
      }
    }
  }

  /** Rows of a given sub-band, with the residue class and range of their channels. */
  lemma SubBandChannels(first: int, last: int, step: int, fc0: int, bw: int, r: Row)
    requires 0 < step && first <= last && r in SubBand(first, last, step, fc0, bw)
    ensures exists k :: 0 <= k <= (last - first) / step && r.channel == first + k * step
  {
    var b := SubBand(first, last, step, fc0, bw);
    var k :| 0 <= k < |b| && b[k] == r;
  }

  lemma Band24Channels(r: Row) requires r in Band24() ensures 1 <= r.channel <= 14 { SubBandChannels(1, 14, 1, 2412, 20, r); }
  lemma Band20Channels(r: Row) requires r in Band20() ensures 32 <= r.channel && r.channel % 4 == 0 { SubBandChannels(32, 144, 4, 5160, 20, r); }
  lemma Band40Channels(r: Row) requires r in Band40() ensures 38 <= r.channel && r.channel % 8 == 6 { SubBandChannels(38, 142, 8, 5190, 40, r); }
  lemma Band80Channels(r: Row) requires r in Band80() ensures 42 <= r.channel && r.channel % 16 == 10 { SubBandChannels(42, 138, 16, 5210, 80, r); }
  lemma Band160Channels(r: Row) requires r in Band160() ensures 50 <= r.channel && r.channel % 32 == 18 { SubBandChannels(50, 114, 32, 5250, 160, r); }

  lemma Distinct2()
    ensures DistinctChannels(Band24() + Band20())
  {
    var b0, b1 := Band24(), Band20();
    SubBandIncreasing(1, 14, 1, 2412, 20);
    SubBandIncreasing(32, 144, 4, 5160, 20);
    forall x: Row, y: Row | x in b0 && y in b1 ensures x.channel != y.channel {
      Band24Channels(x); Band20Channels(y);
    }
    DistinctConcat(b0, b1);
  }

  lemma Distinct3()
    ensures DistinctChannels(Band24() + Band20() + Band40())
  {
    var b0, b1, b2 := Band24(), Band20(), Band40();
    Distinct2();
    SubBandIncreasing(38, 142, 8, 5190, 40);
    forall x: Row, y: Row | x in b0 + b1 && y in b2 ensures x.channel != y.channel {
      Band40Channels(y);
      if x in b0 { Band24Channels(x); } else { Band20Channels(x); }
    }
    DistinctConcat(b0 + b1, b2);
  }

  lemma Distinct4()
    ensures DistinctChannels(Band24() + Band20() + Band40() + Band80())
  {
    var b0, b1, b2, b3 := Band24(), Band20(), Band40(), Band80();
    Distinct3();
    SubBandIncreasing(42, 138, 16, 5210, 80);
    forall x: Row, y: Row | x in b0 + b1 + b2 && y in b3 ensures x.channel != y.channel {
      Band80Channels(y);
      if x in b0 { Band24Channels(x); } else if x in b1 { Band20Channels(x); } else { Band40Channels(x); }
    }
    DistinctConcat(b0 + b1 + b2, b3);
  }

  /** No two rows of the five sub-bands share a channel number. */
  lemma BandsDistinct()
    ensures DistinctChannels(Bands())
  {
    var b0, b1, b2, b3, b4 := Band24(), Band20(), Band40(), Band80(), Band160();
    Distinct4();
    SubBandIncreasing(50, 114, 32, 5250, 160);
    forall x: Row, y: Row | x in b0 + b1 + b2 + b3 && y in b4 ensures x.channel != y.channel {
      Band160Channels(y);
      if x in b0 { Band24Channels(x); } else if x in b1 { Band20Channels(x); }
      else if x in b2 { Band40Channels(x); } else { Band80Channels(x); }
    }
    DistinctConcat(b0 + b1 + b2 + b3, b4);
  }

  /** Plan uniqueness: no two entries of the plan share a channel number or a centre. */
  lemma PlanDistinct()
    ensures forall i, j :: 0 <= i < j < |Plan()| ==>
      Plan()[i].channel != Plan()[j].channel && Plan()[i].fc != Plan()[j].fc
  {
    BandsDistinct();
    DropGapDistinct(Bands());
    PlanReference();
    var p := Plan();
    forall i, j | 0 <= i < j < |p|
      ensures p[i].channel != p[j].channel && p[i].fc != p[j].fc
    {
      assert p[i] in p && p[j] in p;
      if p[i].fc == p[j].fc {
        RefFcInjective(p[i].channel, p[j].channel);
      }
    }
  }

  // ---------------------------------------------------------------------------------
  // Lookups

  /** `fplan[fplan.Fc == f].index[0]`: the channel of the first entry centred at `f`,
      `None` where the tool's `.index[0]` raises IndexError. */
  function ChannelAt(plan: seq<Entry>, f: int): (r: Option<int>)
    ensures r.None? <==> forall e :: e in plan ==> e.fc != f
    ensures r.Some? ==> exists e :: e in plan && e.fc == f && e.channel == r.value
  {
    if plan == [] then None
    else if plan[0].fc == f then Some(plan[0].channel)
    else ChannelAt(plan[1..], f)
  }

  /** `fplan.loc[c]`: the entry of channel `c`, `None` where the tool raises KeyError. */
  function Lookup(plan: seq<Entry>, c: int): (r: Option<Entry>)
    ensures r.None? <==> forall e :: e in plan ==> e.channel != c
    ensures r.Some? ==> r.value in plan && r.value.channel == c
  {
    if plan == [] then None
    else if plan[0].channel == c then Some(plan[0])
    else Lookup(plan[1..], c)
  }

  /** The `Fc`-to-channel lookup finds exactly the closed-form channel centred at `f`,
      and finds nothing when no closed-form channel is centred there. */
  lemma ChannelAtPlan(f: int, c: int)
    ensures ChannelAt(Plan(), f) == Some(c) <==> InPlan(c) && RefFc(c) == f
    ensures ChannelAt(Plan(), f).None? ==> !(InPlan(c) && RefFc(c) == f)
  {
    PlanReference();
    var r := ChannelAt(Plan(), f);
    if r.Some? {
      var e :| e in Plan() && e.fc == f && e.channel == r.value;
      if InPlan(c) && RefFc(c) == f {
        RefFcInjective(c, r.value);
      }
    }
  }

  /** `fplan.loc[c]` yields the closed-form entry of `c`, and fails off the plan. */
  lemma LookupPlan(c: int)
    ensures Lookup(Plan(), c) == if InPlan(c) then Some(RefEntry(c)) else None
  {
    PlanReference();
    if InPlan(c) {
      assert RefEntry(c) in Plan();
    }
  }

  /** A plan whose two lookups agree with the closed form: the `Fc` lookup finds the
      plan channel centred at a frequency and nothing else, and the channel lookup
      finds the closed-form entry of a plan channel and nothing off the plan. */
  ghost predicate Faithful(plan: seq<Entry>)
  {
    && (forall f :: ChannelAt(plan, f).Some? ==> InPlan(ChannelAt(plan, f).value) && RefFc(ChannelAt(plan, f).value) == f)
    && (forall c :: InPlan(c) ==> ChannelAt(plan, RefFc(c)) == Some(c))
    && (forall c :: Lookup(plan, c) == if InPlan(c) then Some(RefEntry(c)) else None)
  }

  /** The channel plan is faithful to its closed form. */
  lemma PlanFaithful()
    ensures Faithful(Plan())
  {
    forall f | ChannelAt(Plan(), f).Some?
      ensures InPlan(ChannelAt(Plan(), f).value) && RefFc(ChannelAt(Plan(), f).value) == f
    {
      ChannelAtPlan(f, ChannelAt(Plan(), f).value);
    }
    forall c | InPlan(c) ensures ChannelAt(Plan(), RefFc(c)) == Some(c) {
      ChannelAtPlan(RefFc(c), c);
    }
    forall c ensures Lookup(Plan(), c) == if InPlan(c) then Some(RefEntry(c)) else None {
      LookupPlan(c);
    }
  }
}
