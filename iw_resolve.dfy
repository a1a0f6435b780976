/** The second half of the `iw` scan parser (`parse_iw_scan`, second loop and the
    DataFrame that follows): each record's 20 MHz channel, its HT and VHT operation
    sub-keys, and the centre frequency and width that result. */
module IwResolve {
  import opened Wrappers
  import opened Text
  import opened ScanError
  import opened ChannelPlan
  import opened IwScan

  // The sub-keys the resolver reads, as the tokenizer stores them (without the
  // `HT ` / `VHT ` prefix of their column name).
  const Primary := "primary channel"
  const Offset := "secondary channel offset"
  const StaWidth := "STA channel width"
  const VhtWidth := "channel width"
  const Segment1 := "center freq segment 1"
  const Segment2 := "center freq segment 2"
  const Segment3 := "center freq segment 3"

  /** What the HT part of the loop body leaves: `BW`, `freq_40` with `channel_40` if any, the
      `DS Parameter set` and HT keys that survive its `del` statements. */
  datatype HtPart = HtPart(bw: int, forty: Option<(int, Option<int>)>, ds: Option<int>, ht: map<string, string>)

  /** What the VHT part leaves: `BW`, `freq_VHT` with `channel_VHT`, and the surviving VHT keys. */
  datatype VhtPart = VhtPart(bw: int, eighty: Option<(int, int)>, vht: map<string, string>)

  /** A record after the loop body: the record with its deleted keys gone, then the
      columns the body adds. */
  datatype Resolved = Resolved(
    net: Bss,
    channel20: int,
    freq40: Option<int>,
    channel40: Option<int>,
    freqVht: Option<int>,
    channelVht: Option<int>,
    chanbw: int,
    fc: int,
    channel: int)

  /** A row of the returned DataFrame: the resolved record with `fmin`, `fmax` and `Time`. */
  datatype Net = Net(info: Resolved, fmin: int, fmax: int, time: int)

  /** `freq_40` and `channel_40` for an `any` STA width: the plan centre of the primary
      channel moved 10 MHz towards the secondary channel, and the plan channel centred
      there when it lies above 5000 MHz. */
  function Forty(plan: seq<Entry>, ht: map<string, string>, primary: int): Result<(int, Option<int>), Error>
  {
    var e :- Lookup(plan, primary).ToResult(UnknownChannel(primary));
    if Offset !in ht then Failure(MissingKey("HT " + Offset))
    else
      var freq := e.fc + (if ht[Offset] == "above" then 10 else -10);
      if freq > 5000 then
        var c :- ChannelAt(plan, freq).ToResult(NoPlanChannel(freq));
        Success((freq, Some(c)))
      else Success((freq, None))
  }

  /** The `if "HT primary channel" in net:` block. */
  function ResolveHt(plan: seq<Entry>, b: Bss, channel20: int): Result<HtPart, Error>
  {
    if Primary !in b.ht then Success(HtPart(20, None, b.ds, b.ht))
    else
      var text := b.ht[Primary];
      var primary :- ParseInt(text).ToResult(BadNumber(text));
      if channel20 != primary then Failure(PrimaryMismatch(channel20, primary))
      else if b.ds.Some? && primary != b.ds.value then Failure(DsMismatch(primary, b.ds.value))
      else
        var ht := b.ht - {Primary};
        if StaWidth !in ht then Failure(MissingKey("HT " + StaWidth))
        else
          var wide := ht[StaWidth] == "any";
          var forty :- if wide then Forty(plan, ht, primary).AsSome() else Success(None);
          if Offset !in ht then Failure(MissingKey("HT " + Offset))
          else
            Success(HtPart(if wide then 40 else 20, forty, None, ht - {Offset, StaWidth}))
  }

  /** `freq_VHT` and `channel_VHT` for a segment-1 channel of 32 or more: the plan centre
      of that channel, after checking that there is no second segment and that the
      width agrees with the plan. */
  function Eighty(plan: seq<Entry>, vht: map<string, string>, channel: int, bw: int): Result<(int, int), Error>
  {
    var e :- Lookup(plan, channel).ToResult(UnknownChannel(channel));
    if Segment2 !in vht then Failure(MissingKey("VHT " + Segment2))
    else if vht[Segment2] != "0" || Segment3 in vht then Failure(VhtSegments)
    else if bw != e.bw then Failure(VhtBandwidth(bw, e.bw))
    else
      var c :- ChannelAt(plan, e.fc).ToResult(NoPlanChannel(e.fc));
      Success((e.fc, c))
  }

  /** The `if "VHT channel width" in net:` block, starting from the `BW` the HT block left. */
  function ResolveVht(plan: seq<Entry>, vht: map<string, string>, bw: int): Result<VhtPart, Error>
  {
    if VhtWidth !in vht then Success(VhtPart(bw, None, vht))
    else
      var width := vht[VhtWidth];
      if |width| == 0 then Failure(EmptyWidth)
      else
        var code :- ParseInt([width[0]]).ToResult(BadNumber([width[0]]));
        var bw' := if code == 1 then 80 else if code > 1 then 160 else bw;
        if Segment1 !in vht then Failure(MissingKey("VHT " + Segment1))
        else
          var text := vht[Segment1];
          var channel :- ParseInt(text).ToResult(BadNumber(text));
          var eighty :- if channel >= 32 then Eighty(plan, vht, channel, bw').AsSome() else Success(None);
          if Segment2 !in vht then Failure(MissingKey("VHT " + Segment2))
          else
            Success(VhtPart(bw', eighty, vht - {Segment2, Segment1, VhtWidth}))
  }

  /** One iteration of the resolver loop: the 20 MHz channel of `freq_20`, the HT and
      VHT blocks, and `Fc`/`Channel` taken from VHT, else from HT40 when a 40 MHz channel
      was found, else from the 20 MHz channel. */
  function Resolve(plan: seq<Entry>, b: Bss): Result<Resolved, Error>
  {
    var freq20 :- b.freq20.ToResult(MissingKey("freq_20"));
    var channel20 :- ChannelAt(plan, freq20).ToResult(NoPlanChannel(freq20));
    var h :- ResolveHt(plan, b, channel20);
    var v :- ResolveVht(plan, b.vht, h.bw);
    var centre :=
      if v.eighty.Some? then v.eighty.value
      else if h.forty.Some? && h.forty.value.1.Some? then (h.forty.value.0, h.forty.value.1.value)
      else (freq20, channel20);
    Success(Resolved(
      b.(ds := h.ds, ht := h.ht, vht := v.vht), channel20,
      if h.forty.Some? then Some(h.forty.value.0) else None,
      if h.forty.Some? then h.forty.value.1 else None,
      if v.eighty.Some? then Some(v.eighty.value.0) else None,
      if v.eighty.Some? then Some(v.eighty.value.1) else None,
      v.bw, centre.0, centre.1))
  }

  /** The resolver loop over all records, stopping at the first exception. */
  function ResolveSeq(plan: seq<Entry>, wlans: seq<Bss>): Result<seq<Resolved>, Error>
    decreases |wlans|
  {
    if wlans == [] then Success([])
    else
      var r :- Resolve(plan, wlans[0]);
      var rest :- ResolveSeq(plan, wlans[1..]);
      Success([r] + rest)
  }

  /** `df["fmin"] = df.Fc - df.chanbw//2`, `df["fmax"] = df.Fc + df.chanbw//2` and
      `df['Time'] = ...` on the DataFrame of the resolved records; the DataFrame of no
      records has no `Fc` column. */
  function Frame(rows: seq<Resolved>, time: int): Result<seq<Net>, Error>
  {
    if rows == [] then Failure(MissingColumn("Fc"))
    else Success(seq(|rows|, i requires 0 <= i < |rows| => Net(rows[i], rows[i].fc - rows[i].chanbw / 2, rows[i].fc + rows[i].chanbw / 2, time)))
  }

  /** `int(time()) if mtime is None else mtime`, with the clock reading `now` passed in. */
  function TimeOf(mtime: Option<int>, now: int): int
  {
    if mtime.Some? then mtime.value else now
  }

  /** The whole parser, with `fplan` the channel plan: split the text into lines,
      tokenize, resolve, build the rows. */
  function IwScanTable(plan: seq<Entry>, text: string, iface: string, mtime: Option<int>, now: int): Result<seq<Net>, Error>
  {
    var wlans :- Tokenize(SplitLines(text), iface);
    var rows :- ResolveSeq(plan, wlans);
    Frame(rows, TimeOf(mtime, now))
  }

  /** The records resolved so far ahead of the outcome of the rest of the loop. */
  function Prepend(done: seq<Resolved>, rest: Result<seq<Resolved>, Error>): Result<seq<Resolved>, Error>
  {
    match rest
    case Success(r) => Success(done + r)
    case Failure(e) => Failure(e)
  }

  /** The resolver loop, updating each record in turn. */
  method ResolveAll(plan: seq<Entry>, wlans: seq<Bss>) returns (r: Result<seq<Resolved>, Error>)
    ensures r == ResolveSeq(plan, wlans)
  {
    var done: seq<Resolved> := [];
    var i := 0;
    assert wlans[i..] == wlans;
    if ResolveSeq(plan, wlans).Success? {
      assert done + ResolveSeq(plan, wlans).value == ResolveSeq(plan, wlans).value;
    }
    while i < |wlans|
      invariant 0 <= i <= |wlans|
      invariant ResolveSeq(plan, wlans) == Prepend(done, ResolveSeq(plan, wlans[i..]))
    {
      assert wlans[i..][0] == wlans[i] && wlans[i..][1..] == wlans[i + 1..];
      var net := Resolve(plan, wlans[i]);
      if net.Failure? {
        return Failure(net.error);
      }
      if ResolveSeq(plan, wlans[i + 1..]).Success? {
        var rest := ResolveSeq(plan, wlans[i + 1..]).value;
        assert done + ([net.value] + rest) == (done + [net.value]) + rest;
      }
      done := done + [net.value];
      i := i + 1;
    }
    assert wlans[i..] == [] && done + [] == done;
    r := Success(done);
  }

  /** `parse_iw_scan(wlanstr, iface, mtime)`, with the clock reading `now`. */
  method ParseIwScan(text: string, iface: string, mtime: Option<int>, now: int) returns (r: Result<seq<Net>, Error>)
    ensures r == IwScanTable(Plan(), text, iface, mtime, now)
  {
    var fplan := Plan();
    var wlans := TokenizeLines(SplitLines(text), iface);
    if wlans.Failure? {
      return Failure(wlans.error);
    }
    var rows := ResolveAll(fplan, wlans.value);
    if rows.Failure? {
      return Failure(rows.error);
    }
    var time := if mtime.Some? then mtime.value else now;
    r := Frame(rows.value, time);
  }

  // ---------------------------------------------------------------------------------
  // The two blocks against the closed-form plan

  /** With a plan primary channel, the HT40 centre is the primary's centre moved 10 MHz
      up for an `above` offset and down otherwise; a 40 MHz channel is found exactly
      above 5000 MHz, and it is the plan channel centred there. */
  lemma FortyPlan(plan: seq<Entry>, ht: map<string, string>, primary: int)
    requires Faithful(plan)
    requires InPlan(primary)
    ensures var r := Forty(plan, ht, primary);
      && (Offset !in ht ==> r == Failure(MissingKey("HT " + Offset)))
      && (r.Success? ==> Offset in ht && r.value.0 == RefFc(primary) + (if ht[Offset] == "above" then 10 else -10))
      && (r.Success? ==> (r.value.1.Some? <==> r.value.0 > 5000))
      && (r.Success? && r.value.1.Some? ==> InPlan(r.value.1.value) && RefFc(r.value.1.value) == r.value.0)
  {
  }

  /** The VHT centre is found exactly for a plan channel with a zero second segment, no
      third segment and the plan's width; it is then that channel and its plan centre. */
  lemma EightyPlan(plan: seq<Entry>, vht: map<string, string>, channel: int, bw: int)
    requires Faithful(plan)
    ensures var r := Eighty(plan, vht, channel, bw);
      && (r.Success? <==> InPlan(channel) && Segment2 in vht && vht[Segment2] == "0" && Segment3 !in vht && bw == RefBw(channel))
      && (!InPlan(channel) ==> r == Failure(UnknownChannel(channel)))
      && (r.Success? ==> r.value == (RefFc(channel), channel))
  {
  }

  /** The HT block: without a primary channel it changes nothing and keeps 20 MHz. With
      one, a success means the primary is the 20 MHz channel and agrees with the DS
      parameter set, the three HT keys and the DS parameter set are gone, and the width
      is 40 MHz exactly for an `any` STA width, which also gives the HT40 centre. */
  lemma HtPlan(plan: seq<Entry>, b: Bss, channel20: int)
    requires Faithful(plan)
    requires InPlan(channel20)
    ensures Primary !in b.ht ==> ResolveHt(plan, b, channel20) == Success(HtPart(20, None, b.ds, b.ht))
    ensures var r := ResolveHt(plan, b, channel20);
      r.Success? && Primary in b.ht ==>
        && ParseInt(b.ht[Primary]) == Some(channel20)
        && (b.ds.Some? ==> b.ds.value == channel20)
        && StaWidth in b.ht && Offset in b.ht
        && r.value.ds.None? && r.value.ht == b.ht - {Primary, Offset, StaWidth}
        && r.value.bw == (if b.ht[StaWidth] == "any" then 40 else 20)
        && (r.value.forty.Some? <==> b.ht[StaWidth] == "any")
    ensures var r := ResolveHt(plan, b, channel20);
      r.Success? && r.value.forty.Some? ==>
        && Primary in b.ht && Offset in b.ht
        && r.value.forty.value.0 == RefFc(channel20) + (if b.ht[Offset] == "above" then 10 else -10)
        && (r.value.forty.value.1.Some? <==> r.value.forty.value.0 > 5000)
        && (r.value.forty.value.1.Some? ==>
              InPlan(r.value.forty.value.1.value) && RefFc(r.value.forty.value.1.value) == r.value.forty.value.0)
  {
    if Primary in b.ht && ResolveHt(plan, b, channel20).Success? {
      var ht := b.ht - {Primary};
      assert ht - {Offset, StaWidth} == b.ht - {Primary, Offset, StaWidth};
      if ht[StaWidth] == "any" {
        FortyPlan(plan, ht, channel20);
      }
    }
  }

  /** The leading digit of the VHT channel width, when there is one. */
  function VhtCode(vht: map<string, string>): Option<int>
  {
    if VhtWidth in vht && |vht[VhtWidth]| > 0 then ParseInt([vht[VhtWidth][0]]) else None
  }

  /** The VHT block: without a channel width it changes nothing. With one, a success
      means the width code set the width (1: 80 MHz, more: 160 MHz, otherwise unchanged),
      the three VHT keys it reads are gone, and a VHT centre is found exactly for a
      segment-1 channel of 32 or more, which is then a plan channel of that width with a
      zero second segment and no third. */
  lemma VhtPlan(plan: seq<Entry>, vht: map<string, string>, bw: int)
    requires Faithful(plan)
    ensures VhtWidth !in vht ==> ResolveVht(plan, vht, bw) == Success(VhtPart(bw, None, vht))
    ensures var r := ResolveVht(plan, vht, bw);
      r.Success? && VhtWidth in vht ==>
        && VhtCode(vht).Some? && Segment1 in vht && Segment2 in vht && ParseInt(vht[Segment1]).Some?
        && r.value.bw == (if VhtCode(vht).value == 1 then 80 else if VhtCode(vht).value > 1 then 160 else bw)
        && r.value.vht == vht - {Segment2, Segment1, VhtWidth}
        && (r.value.eighty.Some? <==> ParseInt(vht[Segment1]).value >= 32)
    ensures var r := ResolveVht(plan, vht, bw);
      r.Success? && r.value.eighty.Some? ==>
        && Segment1 in vht && ParseInt(vht[Segment1]).Some?
        && var c := ParseInt(vht[Segment1]).value;
        && InPlan(c) && r.value.eighty.value == (RefFc(c), c) && r.value.bw == RefBw(c)
        && vht[Segment2] == "0" && Segment3 !in vht
  {
    var r := ResolveVht(plan, vht, bw);
    if r.Success? && VhtWidth in vht {
      var code := VhtCode(vht).value;
      var c := ParseInt(vht[Segment1]).value;
      if c >= 32 {
        EightyPlan(plan, vht, c, if code == 1 then 80 else if code > 1 then 160 else bw);
      }
    }
  }

  // ---------------------------------------------------------------------------------
  // One record

  /** `freq_20` and `Fc` each name a plan channel centred there: `channel_20` and
      `Channel` respectively. */
  lemma ResolveChannel(plan: seq<Entry>, b: Bss)
    requires Faithful(plan)
    requires Resolve(plan, b).Success?
    ensures var r := Resolve(plan, b).value;
      && b.freq20 == Some(RefFc(r.channel20)) && InPlan(r.channel20)
      && InPlan(r.channel) && RefFc(r.channel) == r.fc
  {
    var f := b.freq20.value;
    var c := ChannelAt(plan, f).value;
    HtPlan(plan, b, c);
    var h := ResolveHt(plan, b, c).value;
    VhtPlan(plan, b.vht, h.bw);
  }

  /** Precedence of the centre: VHT first, then HT40 when a 40 MHz channel was found,
      then the 20 MHz channel. */
  lemma ResolvePrecedence(plan: seq<Entry>, b: Bss)
    requires Resolve(plan, b).Success?
    ensures var r := Resolve(plan, b).value;
      && (r.freqVht.Some? ==> r.channelVht.Some? && r.fc == r.freqVht.value && r.channel == r.channelVht.value)
      && (r.freqVht.None? && r.freq40.Some? && r.channel40.Some? ==> r.fc == r.freq40.value && r.channel == r.channel40.value)
      && (r.freqVht.None? && !(r.freq40.Some? && r.channel40.Some?) ==> Some(r.fc) == b.freq20 && r.channel == r.channel20)
  {
  }

  /** Whether the HT block selects 40 MHz. */
  predicate HtWide(b: Bss)
  {
    Primary in b.ht && StaWidth in b.ht && b.ht[StaWidth] == "any"
  }

  /** The bandwidth rule: a VHT width code of 1 gives 80 MHz and a larger one 160 MHz;
      otherwise an HT primary channel with an `any` STA width gives 40 MHz, and anything
      else 20 MHz. */
  lemma ResolveWidth(plan: seq<Entry>, b: Bss)
    requires Faithful(plan)
    requires Resolve(plan, b).Success?
    ensures var r := Resolve(plan, b).value;
      && r.chanbw == (if VhtCode(b.vht) == Some(1) then 80
                      else if VhtCode(b.vht).Some? && VhtCode(b.vht).value > 1 then 160
                      else if HtWide(b) then 40 else 20)
      && r.chanbw in {20, 40, 80, 160}
  {
    var f := b.freq20.value;
    var c := ChannelAt(plan, f).value;
    HtPlan(plan, b, c);
    var h := ResolveHt(plan, b, c).value;
    VhtPlan(plan, b.vht, h.bw);
  }

  /** A VHT centre is the plan centre of segment 1, and the width is that channel's plan
      width; the VHT channel is segment 1 itself. */
  lemma ResolveVhtCentre(plan: seq<Entry>, b: Bss)
    requires Faithful(plan)
    requires Resolve(plan, b).Success? && Resolve(plan, b).value.freqVht.Some?
    ensures var r := Resolve(plan, b).value;
      && Segment1 in b.vht && ParseInt(b.vht[Segment1]).Some?
      && var c := ParseInt(b.vht[Segment1]).value;
      && r.channelVht == Some(c) && r.freqVht == Some(RefFc(c)) && r.chanbw == RefBw(c)
      && r.fc == RefFc(c) && r.channel == c
  {
    var f := b.freq20.value;
    var c := ChannelAt(plan, f).value;
    var h := ResolveHt(plan, b, c).value;
    VhtPlan(plan, b.vht, h.bw);
  }

  /** HT40 on 2.4 GHz: a 40 MHz centre at or below 5000 MHz has no channel, so a record
      without a VHT width keeps its 20 MHz centre and channel while reporting 40 MHz. */
  lemma ResolveHt40Low(plan: seq<Entry>, b: Bss)
    requires Faithful(plan)
    requires Resolve(plan, b).Success?
    requires Resolve(plan, b).value.freq40.Some? && Resolve(plan, b).value.freq40.value <= 5000
    ensures var r := Resolve(plan, b).value;
      && r.channel40.None?
      && (VhtWidth !in b.vht ==> Some(r.fc) == b.freq20 && r.channel == r.channel20 && r.chanbw == 40)
  {
    var f := b.freq20.value;
    var c := ChannelAt(plan, f).value;
    HtPlan(plan, b, c);
    var h := ResolveHt(plan, b, c).value;
    VhtPlan(plan, b.vht, h.bw);
  }

  /** The record keeps its address, `ID`, signal, SSID, country and channel list. */
  lemma ResolveKeeps(plan: seq<Entry>, b: Bss)
    requires Resolve(plan, b).Success?
    ensures var n := Resolve(plan, b).value.net;
      && n.mac == b.mac && n.id == b.id && n.freq20 == b.freq20 && n.signal == b.signal
      && n.ssid == b.ssid && n.country == b.country && n.environment == b.environment
      && n.channels == b.channels
  {
  }

  /** A record without `freq_20` raises KeyError. */
  lemma ResolveNoFreq(plan: seq<Entry>, b: Bss)
    requires b.freq20.None?
    ensures Resolve(plan, b) == Failure(MissingKey("freq_20"))
  {
  }

  /** A `freq_20` that is no plan centre raises IndexError. */
  lemma ResolveOffPlan(plan: seq<Entry>, b: Bss, f: int)
    requires Faithful(plan)
    requires b.freq20 == Some(f) && forall c :: InPlan(c) ==> RefFc(c) != f
    ensures Resolve(plan, b) == Failure(NoPlanChannel(f))
  {
  }

  /** An HT primary channel other than the channel of `freq_20` fails the first
      assertion; one that matches but disagrees with the DS parameter set fails the
      second. */
  lemma ResolvePrimaryChecks(plan: seq<Entry>, b: Bss, c: int)
    requires Faithful(plan)
    requires InPlan(c) && b.freq20 == Some(RefFc(c)) && Primary in b.ht && ParseInt(b.ht[Primary]).Some?
    ensures var p := ParseInt(b.ht[Primary]).value;
      && (p != c ==> Resolve(plan, b) == Failure(PrimaryMismatch(c, p)))
      && (p == c && b.ds.Some? && b.ds.value != c ==> Resolve(plan, b) == Failure(DsMismatch(c, b.ds.value)))
  {
  }

  /** A VHT segment 1 of 32 or more that is no plan channel raises KeyError; one that
      is, with a non-zero segment 2 or a segment 3, fails the segment assertion. */
  lemma VhtSegmentChecks(plan: seq<Entry>, vht: map<string, string>, bw: int)
    requires Faithful(plan)
    requires VhtCode(vht).Some? && Segment1 in vht && ParseInt(vht[Segment1]).Some?
    requires ParseInt(vht[Segment1]).value >= 32
    ensures var c := ParseInt(vht[Segment1]).value;
      && (!InPlan(c) ==> ResolveVht(plan, vht, bw) == Failure(UnknownChannel(c)))
      && (InPlan(c) && Segment2 in vht && (vht[Segment2] != "0" || Segment3 in vht) ==>
            ResolveVht(plan, vht, bw) == Failure(VhtSegments))
  {
    var code := VhtCode(vht).value;
    var c := ParseInt(vht[Segment1]).value;
    EightyPlan(plan, vht, c, if code == 1 then 80 else if code > 1 then 160 else bw);
  }

  /** A VHT width that disagrees with the plan width of segment 1 fails the bandwidth
      assertion. */
  lemma VhtWidthCheck(plan: seq<Entry>, vht: map<string, string>, bw: int)
    requires Faithful(plan)
    requires VhtCode(vht).Some? && Segment1 in vht && ParseInt(vht[Segment1]).Some?
    requires var c := ParseInt(vht[Segment1]).value;
      c >= 32 && InPlan(c) && Segment2 in vht && vht[Segment2] == "0" && Segment3 !in vht
    ensures var c := ParseInt(vht[Segment1]).value;
      var code := VhtCode(vht).value;
      var w := if code == 1 then 80 else if code > 1 then 160 else bw;
      w != RefBw(c) ==> ResolveVht(plan, vht, bw) == Failure(VhtBandwidth(w, RefBw(c)))
  {
  }

  // ---------------------------------------------------------------------------------
  // The loop and the table

  /** The loop succeeds exactly when every record resolves, and then resolves each record
      on its own, in order. */
  lemma {:induction false} ResolveSeqEach(plan: seq<Entry>, wlans: seq<Bss>)
    ensures ResolveSeq(plan, wlans).Success? <==> forall i :: 0 <= i < |wlans| ==> Resolve(plan, wlans[i]).Success?
    ensures ResolveSeq(plan, wlans).Success? ==>
      && |ResolveSeq(plan, wlans).value| == |wlans|
      && forall i :: 0 <= i < |wlans| ==> ResolveSeq(plan, wlans).value[i] == Resolve(plan, wlans[i]).value
    decreases |wlans|
  {
    if wlans != [] {
      ResolveSeqEach(plan, wlans[1..]);
      assert forall i :: 1 <= i < |wlans| ==> wlans[i] == wlans[1..][i - 1];
    }
  }

  /** A failing loop reports the exception of the first record that fails. */
  lemma {:induction false} ResolveSeqFirst(plan: seq<Entry>, wlans: seq<Bss>, k: nat)
    requires k < |wlans| && Resolve(plan, wlans[k]).Failure?
    requires forall i :: 0 <= i < k ==> Resolve(plan, wlans[i]).Success?
    ensures ResolveSeq(plan, wlans) == Failure(Resolve(plan, wlans[k]).error)
    decreases k
  {
    if k > 0 {
      assert forall i :: 0 <= i < k - 1 ==> wlans[1..][i] == wlans[i + 1];
      ResolveSeqFirst(plan, wlans[1..], k - 1);
    }
  }

  /** The table has one row per resolved record, in order, with `fmin`/`fmax` at half the
      channel width below and above `Fc` and the same `Time` in every row; with no records
      it fails. */
  lemma FrameRows(rows: seq<Resolved>, time: int)
    ensures Frame(rows, time).Failure? <==> rows == []
    ensures Frame(rows, time).Success? ==>
      var t := Frame(rows, time).value;
      && |t| == |rows|
      && forall i :: 0 <= i < |t| ==>
        && t[i].info == rows[i] && t[i].time == time
        && t[i].fmin == rows[i].fc - rows[i].chanbw / 2 && t[i].fmax == rows[i].fc + rows[i].chanbw / 2
  {
  }

  /** Rows of a standard width span exactly that width around their centre. */
  lemma FrameSpans(rows: seq<Resolved>, time: int)
    requires forall i :: 0 <= i < |rows| ==> rows[i].chanbw in {20, 40, 80, 160}
    ensures Frame(rows, time).Success? ==>
      var t := Frame(rows, time).value;
      forall i :: 0 <= i < |t| ==> t[i].fmax - t[i].fmin == t[i].info.chanbw && t[i].fmin < t[i].info.fc < t[i].fmax
  {
    FrameRows(rows, time);
  }

  /** Every record the loop resolves has a plan channel centred at its `Fc` and a
      width of 20, 40, 80 or 160 MHz. */
  lemma ResolveSeqChannels(plan: seq<Entry>, wlans: seq<Bss>)
    requires Faithful(plan) && ResolveSeq(plan, wlans).Success?
    ensures var rows := ResolveSeq(plan, wlans).value;
      forall i :: 0 <= i < |rows| ==>
        InPlan(rows[i].channel) && RefFc(rows[i].channel) == rows[i].fc && rows[i].chanbw in {20, 40, 80, 160}
  {
    var rows := ResolveSeq(plan, wlans).value;
    ResolveSeqEach(plan, wlans);
    forall i | 0 <= i < |rows|
      ensures InPlan(rows[i].channel) && RefFc(rows[i].channel) == rows[i].fc && rows[i].chanbw in {20, 40, 80, 160}
    {
      ResolveChannel(plan, wlans[i]);
      ResolveWidth(plan, wlans[i]);
    }
  }

  /** The loop keeps every record's address and `ID`, in order. */
  lemma ResolveSeqHeads(plan: seq<Entry>, wlans: seq<Bss>)
    requires ResolveSeq(plan, wlans).Success?
    ensures var rows := ResolveSeq(plan, wlans).value;
      |rows| == |wlans| && forall i :: 0 <= i < |rows| ==> (rows[i].net.mac, Some(rows[i].net.id)) == Heads(wlans)[i]
  {
    ResolveSeqEach(plan, wlans);
    var rows := ResolveSeq(plan, wlans).value;
    forall i | 0 <= i < |rows| ensures rows[i].net.mac == wlans[i].mac && rows[i].net.id == wlans[i].id {
      ResolveKeeps(plan, wlans[i]);
    }
  }

  /** Every row of a successful `iw` scan table: `Channel` is a plan channel centred at
      `Fc`, the span `fmin..fmax` has the channel width and contains `Fc`, and `Time` is
      `mtime` or the clock. */
  lemma IwScanRows(plan: seq<Entry>, text: string, iface: string, mtime: Option<int>, now: int)
    requires Faithful(plan)
    ensures IwScanTable(plan, text, iface, mtime, now).Success? ==>
      var t := IwScanTable(plan, text, iface, mtime, now).value;
      forall i :: 0 <= i < |t| ==>
        && InPlan(t[i].info.channel) && RefFc(t[i].info.channel) == t[i].info.fc
        && t[i].fmax - t[i].fmin == t[i].info.chanbw && t[i].fmin < t[i].info.fc < t[i].fmax
        && t[i].time == TimeOf(mtime, now)
  {
    var w := Tokenize(SplitLines(text), iface);
    if w.Success? && ResolveSeq(plan, w.value).Success? {
      var rows := ResolveSeq(plan, w.value).value;
      ResolveSeqChannels(plan, w.value);
      FrameRows(rows, TimeOf(mtime, now));
      FrameSpans(rows, TimeOf(mtime, now));
    }
  }

  /** An input with no access point fails for want of an `Fc` column. */
  lemma IwScanEmpty(plan: seq<Entry>, text: string, iface: string, mtime: Option<int>, now: int)
    requires Tokenize(SplitLines(text), iface) == Success([])
    ensures IwScanTable(plan, text, iface, mtime, now) == Failure(MissingColumn("Fc"))
  {
  }

  /** A successful table has one row per opening line, in input order, with the line's
      address and its hexadecimal value as `ID`. */
  lemma IwScanIds(plan: seq<Entry>, text: string, iface: string, mtime: Option<int>, now: int)
    requires IwScanTable(plan, text, iface, mtime, now).Success?
    ensures var t := IwScanTable(plan, text, iface, mtime, now).value;
      var o := Openers(SplitLines(text), iface);
      && |t| == |o|
      && forall i :: 0 <= i < |t| ==> (t[i].info.net.mac, Some(t[i].info.net.id)) == o[i]
  {
    var lines := SplitLines(text);
    TokenizeRecords(lines, iface);
    var w := Tokenize(lines, iface).value;
    ResolveSeqHeads(plan, w);
    FrameRows(ResolveSeq(plan, w).value, TimeOf(mtime, now));
  }
}
