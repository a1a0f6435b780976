/** The line tokenizer of the `iw` scan parser (`parse_iw_scan`, first loop): each line
    of `iw <iface> scan` output either opens a new access-point record, fills a field of
    the most recent record, switches the HT/VHT sub-section, or is ignored. */
module IwScan {
  import opened Wrappers
  import opened Text
  import opened ScanError

  /** The `HTMODE` variable: 0 before any operation header, 1 after `HT operation:`,
      2 after `VHT operation:`. */
  datatype Section = NoSection | HtSection | VhtSection

  /** One record of `wlans` as the tokenizer leaves it. `ht` and `vht` hold the sub-keys
      stored as `"HT " + k` and `"VHT " + k`, keyed by `k`. */
  datatype Bss = Bss(
    mac: string,
    id: int,
    freq20: Option<int>,
    signal: Option<int>,
    ssid: Option<string>,
    ds: Option<int>,
    country: Option<string>,
    environment: Option<string>,
    channels: Option<string>,
    ht: map<string, string>,
    vht: map<string, string>)

  /** The record a `BSS` line appends: only `MAC` and `ID` are set. */
  function Opened(mac: string, id: int): Bss
  {
    Bss(mac, id, None, None, None, None, None, None, None, map[], map[])
  }

  /** The loop state: the record list and `HTMODE`. */
  datatype State = State(wlans: seq<Bss>, section: Section)

  const Start := State([], NoSection)

  /** The line after `line.replace("\t", "").rstrip()`. */
  function Normalize(raw: string): string
  {
    RStrip(Replace(raw, "\t", ""))
  }

  /** A line that opens a record: `BSS ` followed by the address, ending in the interface
      marker or in `-- associated`. */
  predicate Opens(line: string, iface: string)
  {
    StartsWith(line, "BSS ") && (EndsWith(line, "(on " + iface + ")") || EndsWith(line, "-- associated"))
  }

  predicate IsHtKey(line: string)
  {
    StartsWith(line, " * primary channel:") || StartsWith(line, " * secondary channel offset:")
    || StartsWith(line, " * STA channel width:")
  }

  predicate IsVhtKey(line: string)
  {
    StartsWith(line, " * channel width: ") || StartsWith(line, " * center freq segment")
  }

  /** The branch of the tool's `if`/`elif` chain a line takes. */
  datatype Tag =
    | OpenTag | FreqTag | SignalTag | SsidTag | DsTag | CountryTag | ChannelsTag
    | HtHeaderTag | HtKeyTag | VhtHeaderTag | VhtKeyTag | NoTag

  /** The first seven tests of the chain, which do not depend on `HTMODE`. */
  function Common(line: string, iface: string): Tag
  {
    if Opens(line, iface) then OpenTag
    else if StartsWith(line, "freq: ") then FreqTag
    else if StartsWith(line, "signal: ") then SignalTag
    else if StartsWith(line, "SSID: ") then SsidTag
    else if StartsWith(line, "DS Parameter set:") then DsTag
    else if StartsWith(line, "Country:") then CountryTag
    else if StartsWith(line, "Channels ") then ChannelsTag
    else NoTag
  }

  /** The tool's chain of tests as written, the `HTMODE` tests included. */
  function Chain(line: string, iface: string, section: Section): Tag
  {
    var c := Common(line, iface);
    if c != NoTag then c
    else if line == "HT operation:" then HtHeaderTag
    else if section == HtSection && IsHtKey(line) then HtKeyTag
    else if line == "VHT operation:" then VhtHeaderTag
    else if section == VhtSection && IsVhtKey(line) then VhtKeyTag
    else NoTag
  }

  /** The same tests with those on `HTMODE` left for later: a sub-key line is recognised
      by its prefix alone. */
  function Test(line: string, iface: string): Tag
  {
    var c := Common(line, iface);
    if c != NoTag then c
    else if line == "HT operation:" then HtHeaderTag
    else if IsHtKey(line) then HtKeyTag
    else if line == "VHT operation:" then VhtHeaderTag
    else if IsVhtKey(line) then VhtKeyTag
    else NoTag
  }

  /** The `HTMODE` tests: a sub-key line outside its own section falls through the chain. */
  function Gate(tag: Tag, section: Section): Tag
  {
    if tag == HtKeyTag && section != HtSection then NoTag
    else if tag == VhtKeyTag && section != VhtSection then NoTag
    else tag
  }

  /** Testing the sub-key prefixes before `HTMODE` selects the same branch as the tool's
      chain, since no line has both an HT and a VHT sub-key prefix and a sub-key line is
      never a header. */
  lemma TestGate(line: string, iface: string, section: Section)
    ensures Gate(Test(line, iface), section) == Chain(line, iface, section)
  {
    if Common(line, iface) == NoTag && line != "HT operation:" {
      if IsHtKey(line) {
        HtKeyShape(line);
        VhtKeyShape(line);
        assert !IsVhtKey(line);
        assert line != "VHT operation:";
        assert Test(line, iface) == HtKeyTag;
      } else if IsVhtKey(line) {
        VhtKeyShape(line);
        assert line != "VHT operation:";
        assert Test(line, iface) == VhtKeyTag;
      }
    }
  }

  /** An HT sub-key line starts with a space and has `p`, `s` or `S` as its fourth
      character. */
  lemma HtKeyShape(line: string)
    requires IsHtKey(line)
    ensures |line| > 3 && line[0] == ' ' && (line[3] == 'p' || line[3] == 's' || line[3] == 'S')
  {
    if StartsWith(line, " * primary channel:") {
      CharAt(line, " * primary channel:", 0);
      CharAt(line, " * primary channel:", 3);
    } else if StartsWith(line, " * secondary channel offset:") {
      CharAt(line, " * secondary channel offset:", 0);
      CharAt(line, " * secondary channel offset:", 3);
    } else {
      CharAt(line, " * STA channel width:", 0);
      CharAt(line, " * STA channel width:", 3);
    }
  }

  /** A VHT sub-key line starts with a space and has `c` as its fourth character. */
  lemma VhtKeyShape(line: string)
    ensures IsVhtKey(line) ==> |line| > 3 && line[0] == ' ' && line[3] == 'c'
  {
    if StartsWith(line, " * channel width: ") {
      CharAt(line, " * channel width: ", 0);
      CharAt(line, " * channel width: ", 3);
    } else if StartsWith(line, " * center freq segment") {
      CharAt(line, " * center freq segment", 0);
      CharAt(line, " * center freq segment", 3);
    }
  }

  lemma CharAt(line: string, prefix: string, k: nat)
    requires k < |prefix| && StartsWith(line, prefix)
    ensures k < |line| && line[k] == prefix[k]
  {
    assert line[..|prefix|][k] == line[k];
  }

  /** Text whose first character differs from the prefix's does not start with it. */
  lemma NotPrefix(s: string, prefix: string)
    requires |s| > 0 && |prefix| > 0 && s[0] != prefix[0]
    ensures !StartsWith(s, prefix)
  {
  }

  /** A line opens a record exactly when it passes the `BSS ` test, which comes first. */
  lemma TestOpens(line: string, iface: string)
    ensures Test(line, iface) == OpenTag <==> Opens(line, iface)
  {
  }

  /** The `HT operation:` line is recognised as the HT header, and nothing else is. */
  lemma TestHtHeader(line: string, iface: string)
    ensures Test(line, iface) == HtHeaderTag <==> line == "HT operation:"
  {
    if line == "HT operation:" {
      CommonHeaders(line, iface);
    }
  }

  /** The `VHT operation:` line is recognised as the VHT header, and nothing else is. */
  lemma TestVhtHeader(line: string, iface: string)
    ensures Test(line, iface) == VhtHeaderTag <==> line == "VHT operation:"
  {
    if line == "VHT operation:" {
      CommonHeaders(line, iface);
      NotPrefix(line, " * primary channel:");
      NotPrefix(line, " * secondary channel offset:");
      NotPrefix(line, " * STA channel width:");
    }
  }

  /** No header line passes any of the first seven tests. */
  lemma CommonHeaders(line: string, iface: string)
    requires line == "HT operation:" || line == "VHT operation:"
    ensures Common(line, iface) == NoTag
  {
    NotPrefix(line, "BSS ");
    NotPrefix(line, "freq: ");
    NotPrefix(line, "signal: ");
    NotPrefix(line, "SSID: ");
    NotPrefix(line, "DS Parameter set:");
    NotPrefix(line, "Country:");
    NotPrefix(line, "Channels ");
  }

  /** An HT sub-key tag is given only to a line with an HT sub-key prefix. */
  lemma TestHtKey(line: string, iface: string)
    ensures Test(line, iface) == HtKeyTag ==> IsHtKey(line)
  {
  }

  /** A VHT sub-key tag is given only to a line with a VHT sub-key prefix. */
  lemma TestVhtKey(line: string, iface: string)
    ensures Test(line, iface) == VhtKeyTag ==> IsVhtKey(line)
  {
  }

  /** A value written into the last record. */
  datatype Field =
    | Freq(freq: int)
    | Signal(level: int)
    | Ssid(name: string)
    | Ds(channel: int)
    | Country(code: string, environment: string)
    | Channels(list: string)
    | Ht(hkey: string, hvalue: string)
    | Vht(vkey: string, vvalue: string)

  /** A normalised line's branch with the value that branch computes on the right-hand
      side of its assignment, or the exception that computation raises. */
  datatype Kind =
    | BssLine(mac: string, id: Option<int>)
    | Put(field: Result<Field, Error>)
    | CountryLine(parts: seq<string>)
    | HtHeader
    | HtKey(pair: Result<(string, string), Error>)
    | VhtHeader
    | VhtKey(pair: Result<(string, string), Error>)
    | Ignored

  /** `line[4:21]` and `int(line[4:21].replace(':', ''), 16)`: the 17 characters after
      `BSS ` when the line is long enough, and a 48-bit identifier when they are a MAC
      address. */
  function Address(line: string): (k: Kind)
    ensures k.BssLine? && |k.mac| <= 17
    ensures |line| >= 21 ==> |k.mac| == 17
    ensures IsMac(k.mac) ==> k.id.Some? && 0 <= k.id.value < 0x1_0000_0000_0000
  {
    var mac := Slice(line, 4, 21);
    if IsMac(mac) then
      MacId(mac);
      BssLine(mac, ParseHex(Replace(mac, ":", "")))
    else BssLine(mac, ParseHex(Replace(mac, ":", "")))
  }

  /** A number read from `text`, stored as the field `f` makes of it. */
  function Number(text: string, v: Option<int>, f: int -> Field): Kind
  {
    match v
    case None => Put(Failure(BadNumber(text)))
    case Some(n) => Put(Success(f(n)))
  }

  /** What each branch computes from the line. */
  function Evaluate(line: string, tag: Tag): (k: Kind)
    ensures k.BssLine? <==> tag == OpenTag
    ensures k.HtKey? <==> tag == HtKeyTag
    ensures k.VhtKey? <==> tag == VhtKeyTag
    ensures k == HtHeader <==> tag == HtHeaderTag
    ensures k == VhtHeader <==> tag == VhtHeaderTag
    ensures Plain(k)
  {
    match tag
    case OpenTag => Address(line)
    case FreqTag => Number(From(line, 6), IntOfFloat(From(line, 6)), n => Freq(n))
    case SignalTag => Number(Slice(line, 8, |line| - 4), IntOfFloat(Slice(line, 8, |line| - 4)), n => Signal(n))
    case SsidTag => Put(Success(Ssid(From(line, 6))))
    case DsTag => Number(From(line, 26), ParseInt(From(line, 26)), n => Ds(n))
    case CountryTag => CountryLine(CountryParts(line))
    case ChannelsTag => Put(Success(Channels(From(line, 9))))
    case HtHeaderTag => HtHeader
    case HtKeyTag => HtKey(SubKey(line))
    case VhtHeaderTag => VhtHeader
    case VhtKeyTag => VhtKey(SubKey(line))
    case NoTag => Ignored
  }

  /** Sub-keys reach a record only through their own tokens: no plain field token
      carries an HT or VHT sub-key. */
  predicate Plain(k: Kind)
  {
    k.Put? && k.field.Success? ==> !k.field.value.Ht? && !k.field.value.Vht?
  }

  function Lex(line: string, iface: string): Kind
  {
    Evaluate(line, Test(line, iface))
  }

  /** A normalised line with its token. */
  datatype Token = Token(line: string, kind: Kind)

  function Scan(raw: string, iface: string): Token
  {
    var line := Normalize(raw);
    Token(line, Lex(line, iface))
  }

  function Scanned(lines: seq<string>, iface: string): (r: seq<Token>)
    ensures |r| == |lines|
    decreases |lines|
  {
    if lines == [] then [] else [Scan(lines[0], iface)] + Scanned(lines[1..], iface)
  }

  function Set(b: Bss, f: Field): (r: Bss)
    ensures r.mac == b.mac && r.id == b.id
    ensures !f.Ht? ==> r.ht == b.ht
    ensures !f.Vht? ==> r.vht == b.vht
  {
    match f
    case Freq(v) => b.(freq20 := Some(v))
    case Signal(v) => b.(signal := Some(v))
    case Ssid(v) => b.(ssid := Some(v))
    case Ds(v) => b.(ds := Some(v))
    case Country(c, e) => b.(country := Some(c), environment := Some(e))
    case Channels(v) => b.(channels := Some(v))
    case Ht(k, v) => b.(ht := b.ht[k := v])
    case Vht(k, v) => b.(vht := b.vht[k := v])
  }

  /** `wlans[-1][...] = ...`: fails with IndexError when no record is open, and otherwise
      rewrites the last record alone. */
  function Store(st: State, line: string, f: Field): (r: Result<State, Error>)
    ensures r.Failure? <==> st.wlans == []
    ensures r.Failure? ==> r.error == NoOpenRecord(line)
    ensures r.Success? ==> r.value.section == st.section && |r.value.wlans| == |st.wlans|
    ensures r.Success? ==> forall i :: 0 <= i < |st.wlans| - 1 ==> r.value.wlans[i] == st.wlans[i]
    ensures r.Success? ==> r.value.wlans[|st.wlans| - 1] == Set(st.wlans[|st.wlans| - 1], f)
  {
    if st.wlans == [] then Failure(NoOpenRecord(line))
    else
      var n := |st.wlans|;
      Success(st.(wlans := st.wlans[..n - 1] + [Set(st.wlans[n - 1], f)]))
  }

  /** `line.replace(" * ", "").replace(": ", ":")` unpacked by `k, v = line.split(':')`,
      which raises ValueError unless there are exactly two parts. */
  function SubKey(line: string): (r: Result<(string, string), Error>)
    ensures r.Failure? ==> r.error == BadField(line)
    ensures var rw := Replace(Replace(line, " * ", ""), ": ", ":");
      && (r.Success? <==> |Split(rw, ':')| == 2)
      && (r.Success? ==> r.value.0 + ":" + r.value.1 == rw)
    ensures r.Success? ==> ':' !in r.value.0 && ':' !in r.value.1
  {
    var parts := Split(Replace(Replace(line, " * ", ""), ": ", ":"), ':');
    SplitJoin(Replace(Replace(line, " * ", ""), ": ", ":"), ':');
    if |parts| == 2 then
      assert parts[0] in parts && parts[1] in parts;
      Success((parts[0], parts[1]))
    else Failure(BadField(line))
  }

  /** `tmp = line.replace("Country: ", "").replace("Environment: ", "|").split("|")`. */
  function CountryParts(line: string): seq<string>
  {
    Split(Replace(Replace(line, "Country: ", ""), "Environment: ", "|"), '|')
  }

  /** One iteration of the tokenizer loop: the branch the token selects under the current
      `HTMODE` (a sub-key outside its section is ignored, as `Gate` says). A bad number
      is reported before a missing record, as the right-hand side is evaluated before
      `wlans[-1]` is indexed; for `Country:` a missing record is reported before a
      missing `Environment: ` part, as the country is stored before `tmp[1]` is read. */
  function Apply(st: State, t: Token): Result<State, Error>
  {
    match t.kind
    case BssLine(mac, id) =>
      var v :- id.ToResult(BadNumber(mac));
      Success(State(st.wlans + [Opened(mac, v)], st.section))
    case Put(field) =>
      var f :- field;
      Store(st, t.line, f)
    case CountryLine(tmp) =>
      if st.wlans == [] then Failure(NoOpenRecord(t.line))
      else if |tmp| < 2 then Failure(MissingEnvironment(t.line))
      else Store(st, t.line, Country(tmp[0], tmp[1]))
    case HtHeader => Success(st.(section := HtSection))
    case HtKey(pair) =>
      if st.section != HtSection then Success(st)
      else
        var kv :- pair;
        Store(st, t.line, Ht(kv.0, kv.1))
    case VhtHeader => Success(st.(section := VhtSection))
    case VhtKey(pair) =>
      if st.section != VhtSection then Success(st)
      else
        var kv :- pair;
        Store(st, t.line, Vht(kv.0, kv.1))
    case Ignored => Success(st)
  }

  /** The tokenizer from state `st` over the remaining tokens: the loop run to the end, or
      to the first exception. */
  function Run(st: State, tokens: seq<Token>): Result<State, Error>
    decreases |tokens|
  {
    if tokens == [] then Success(st)
    else
      var next :- Apply(st, tokens[0]);
      Run(next, tokens[1..])
  }

  /** The record list of the whole input, or its exception. */
  function Tokenize(lines: seq<string>, iface: string): Result<seq<Bss>, Error>
  {
    match Run(Start, Scanned(lines, iface))
    case Success(st) => Success(st.wlans)
    case Failure(e) => Failure(e)
  }

  /** The tokenizer loop itself: appends to `wlans` and rewrites `wlans[-1]` under the
      control of `HTMODE`, returning the records or the first exception. */
  method TokenizeLines(lines: seq<string>, iface: string) returns (r: Result<seq<Bss>, Error>)
    ensures r == Tokenize(lines, iface)
  {
    var wlans: seq<Bss> := [];
    var mode := NoSection;
    var i := 0;
    while i < |lines|
      invariant 0 <= i <= |lines|
      invariant Run(Start, Scanned(lines, iface)) == Run(State(wlans, mode), Scanned(lines[i..], iface))
    {
      assert lines[i..][0] == lines[i] && lines[i..][1..] == lines[i + 1..];
      var line := Normalize(lines[i]);
      var next := ApplyLine(wlans, mode, Token(line, Lex(line, iface)));
      if next.Failure? {
        return Failure(next.error);
      }
      wlans, mode := next.value.wlans, next.value.section;
      i := i + 1;
    }
    assert lines[i..] == [];
    r := Success(wlans);
  }

  /** The body of one iteration: the branch of the `if`/`elif` chain the token selects. */
  method ApplyLine(wlans: seq<Bss>, mode: Section, t: Token) returns (r: Result<State, Error>)
    ensures r == Apply(State(wlans, mode), t)
  {
    var field: Field;
    match t.kind {
      case BssLine(mac, id) =>
        if id.None? {
          return Failure(BadNumber(mac));
        }
        return Success(State(wlans + [Opened(mac, id.value)], mode));
      case Put(f) =>
        if f.Failure? {
          return Failure(f.error);
        }
        field := f.value;
      case CountryLine(tmp) =>
        if wlans == [] {
          return Failure(NoOpenRecord(t.line));
        }
        if |tmp| < 2 {
          return Failure(MissingEnvironment(t.line));
        }
        field := Country(tmp[0], tmp[1]);
      case HtHeader =>
        return Success(State(wlans, HtSection));
      case HtKey(pair) =>
        if mode != HtSection {
          return Success(State(wlans, mode));
        }
        if pair.Failure? {
          return Failure(pair.error);
        }
        field := Ht(pair.value.0, pair.value.1);
      case VhtHeader =>
        return Success(State(wlans, VhtSection));
      case VhtKey(pair) =>
        if mode != VhtSection {
          return Success(State(wlans, mode));
        }
        if pair.Failure? {
          return Failure(pair.error);
        }
        field := Vht(pair.value.0, pair.value.1);
      case Ignored =>
        return Success(State(wlans, mode));
    }
    if wlans == [] {
      return Failure(NoOpenRecord(t.line));
    }
    var last := |wlans| - 1;
    r := Success(State(wlans[..last] + [Set(wlans[last], field)], mode));
  }

  // ---------------------------------------------------------------------------------
  // What one line does

  /** An opening line's token is its address and `ID`; the sub-key and header tokens come
      exactly from the sub-key and header tags, and a sub-key token carries the split of
      its line. */
  lemma LexValues(line: string, iface: string)
    ensures Lex(line, iface).BssLine? <==> Opens(line, iface)
    ensures Opens(line, iface) ==> Lex(line, iface) == Address(line)
    ensures Lex(line, iface).HtKey? ==> IsHtKey(line) && Lex(line, iface).pair == SubKey(line)
    ensures Lex(line, iface).VhtKey? ==> IsVhtKey(line) && Lex(line, iface).pair == SubKey(line)
  {
    TestOpens(line, iface);
    TestHtKey(line, iface);
    TestVhtKey(line, iface);
  }

  /** The header tokens are exactly the two header lines. */
  lemma LexHeaders(line: string, iface: string)
    ensures Lex(line, iface) == HtHeader <==> line == "HT operation:"
    ensures Lex(line, iface) == VhtHeader <==> line == "VHT operation:"
  {
    TestHtHeader(line, iface);
    TestVhtHeader(line, iface);
  }

  /** An opening token appends exactly one record, with the token's address and `ID`, and
      does not touch `HTMODE`. */
  lemma ApplyOpens(st: State, t: Token)
    requires t.kind.BssLine?
    ensures Apply(st, t).Failure? <==> t.kind.id.None?
    ensures t.kind.id.None? ==> Apply(st, t).error == BadNumber(t.kind.mac)
    ensures t.kind.id.Some? ==> Apply(st, t).value == State(st.wlans + [Opened(t.kind.mac, t.kind.id.value)], st.section)
  {
  }

  /** Every other token keeps the number of records and every record's `MAC` and `ID`,
      and leaves every record but the last one as it was. */
  lemma ApplyKeeps(st: State, t: Token)
    requires !t.kind.BssLine? && Apply(st, t).Success?
    ensures var w := Apply(st, t).value.wlans;
      && |w| == |st.wlans|
      && (forall i :: 0 <= i < |w| ==> w[i].mac == st.wlans[i].mac && w[i].id == st.wlans[i].id)
      && (forall i :: 0 <= i < |w| - 1 ==> w[i] == st.wlans[i])
  {
    var w := Apply(st, t).value.wlans;
    forall i | 0 <= i < |w| ensures w[i].mac == st.wlans[i].mac && w[i].id == st.wlans[i].id {
      if i < |w| - 1 {
        assert w[i] == st.wlans[i];
      }
    }
  }

  /** `HTMODE` changes only at the two header tokens, whatever the section; in particular
      an opening line leaves it as it was. */
  lemma ApplySection(st: State, t: Token)
    requires Apply(st, t).Success?
    ensures Apply(st, t).value.section
      == if t.kind == HtHeader then HtSection else if t.kind == VhtHeader then VhtSection else st.section
  {
  }

  /** HT sub-keys are written only while `HTMODE` is 1: otherwise no record's `ht`
      changes and a new record has none. An HT sub-key token read while `HTMODE` is 1
      adds its key and value to the last record. */
  lemma ApplyHt(st: State, t: Token)
    requires Plain(t.kind) && Apply(st, t).Success?
    ensures var w := Apply(st, t).value.wlans;
      !(t.kind.HtKey? && st.section == HtSection) ==>
        forall i :: 0 <= i < |w| ==> w[i].ht == (if i < |st.wlans| then st.wlans[i].ht else map[])
    ensures var w := Apply(st, t).value.wlans;
      t.kind.HtKey? && st.section == HtSection ==>
        && t.kind.pair.Success? && |w| == |st.wlans| > 0
        && w[|w| - 1].ht == st.wlans[|w| - 1].ht[t.kind.pair.value.0 := t.kind.pair.value.1]
  {
    var w := Apply(st, t).value.wlans;
    if t.kind.BssLine? {
      forall i | 0 <= i < |st.wlans| ensures w[i] == st.wlans[i] {
        assert w[i] == (st.wlans + [Opened(t.kind.mac, t.kind.id.value)])[i];
      }
    }
  }

  /** VHT sub-keys are written only while `HTMODE` is 2, and a VHT sub-key token read
      while `HTMODE` is 2 adds its key and value to the last record. */
  lemma ApplyVht(st: State, t: Token)
    requires Plain(t.kind) && Apply(st, t).Success?
    ensures var w := Apply(st, t).value.wlans;
      !(t.kind.VhtKey? && st.section == VhtSection) ==>
        forall i :: 0 <= i < |w| ==> w[i].vht == (if i < |st.wlans| then st.wlans[i].vht else map[])
    ensures var w := Apply(st, t).value.wlans;
      t.kind.VhtKey? && st.section == VhtSection ==>
        && t.kind.pair.Success? && |w| == |st.wlans| > 0
        && w[|w| - 1].vht == st.wlans[|w| - 1].vht[t.kind.pair.value.0 := t.kind.pair.value.1]
  {
    var w := Apply(st, t).value.wlans;
    if t.kind.BssLine? {
      forall i | 0 <= i < |st.wlans| ensures w[i] == st.wlans[i] {
        assert w[i] == (st.wlans + [Opened(t.kind.mac, t.kind.id.value)])[i];
      }
    }
  }

  // ---------------------------------------------------------------------------------
  // What a whole run does

  /** The address and `ID` of each opening line, in input order. */
  function Openers(lines: seq<string>, iface: string): seq<(string, Option<int>)>
    decreases |lines|
  {
    if lines == [] then []
    else
      var line := Normalize(lines[0]);
      var k := Address(line);
      (if Opens(line, iface) then [(k.mac, k.id)] else []) + Openers(lines[1..], iface)
  }

  /** Each opening line's `ID` is the hexadecimal value of its address. */
  lemma {:induction false} OpenersIds(lines: seq<string>, iface: string)
    ensures forall p :: p in Openers(lines, iface) ==> p.1 == ParseHex(Replace(p.0, ":", ""))
    decreases |lines|
  {
    if lines != [] {
      var line := Normalize(lines[0]);
      var k := Address(line);
      var head := if Opens(line, iface) then [(k.mac, k.id)] else [];
      assert Openers(lines, iface) == head + Openers(lines[1..], iface);
      assert forall p :: p in head ==> p.1 == ParseHex(Replace(p.0, ":", ""));
      OpenersIds(lines[1..], iface);
    }
  }

  /** The address and `ID` of each opening token, in order. */
  function Addresses(tokens: seq<Token>): seq<(string, Option<int>)>
    decreases |tokens|
  {
    if tokens == [] then []
    else
      var k := tokens[0].kind;
      (if k.BssLine? then [(k.mac, k.id)] else []) + Addresses(tokens[1..])
  }

  /** The address and `ID` of each record. */
  function Heads(w: seq<Bss>): seq<(string, Option<int>)>
  {
    seq(|w|, i requires 0 <= i < |w| => (w[i].mac, Some(w[i].id)))
  }

  lemma HeadsAppend(a: seq<Bss>, b: seq<Bss>)
    ensures Heads(a + b) == Heads(a) + Heads(b)
  {
    assert forall i :: 0 <= i < |a| ==> (a + b)[i] == a[i];
    assert forall i :: |a| <= i < |a| + |b| ==> (a + b)[i] == b[i - |a|];
  }

  /** The section selected by the last header token, or `section` if there is none. */
  function LastHeader(section: Section, tokens: seq<Token>): Section
    decreases |tokens|
  {
    if tokens == [] then section
    else
      var k := tokens[0].kind;
      LastHeader(if k == HtHeader then HtSection else if k == VhtHeader then VhtSection else section, tokens[1..])
  }

  /** From any state, a successful run keeps the records it started with, with their
      address and `ID`, and appends one record per opening token, in order, with that
      token's address and `ID`. */
  lemma {:induction false} RunRecords(st: State, tokens: seq<Token>)
    requires Run(st, tokens).Success?
    ensures Heads(Run(st, tokens).value.wlans) == Heads(st.wlans) + Addresses(tokens)
    decreases |tokens|
  {
    if tokens != [] {
      var t := tokens[0];
      var next := Apply(st, t).value;
      RunRecords(next, tokens[1..]);
      HeadsStep(st, t);
      assert Addresses(tokens) == Addresses([t]) + Addresses(tokens[1..]);
    }
  }

  /** One token adds the heads of its opening line, if it is one, to the records. */
  lemma HeadsStep(st: State, t: Token)
    requires Apply(st, t).Success?
    ensures Heads(Apply(st, t).value.wlans) == Heads(st.wlans) + Addresses([t])
  {
    var next := Apply(st, t).value;
    if t.kind.BssLine? {
      ApplyOpens(st, t);
      HeadsAppend(st.wlans, [Opened(t.kind.mac, t.kind.id.value)]);
    } else {
      ApplyKeeps(st, t);
      assert Heads(next.wlans) == Heads(st.wlans);
    }
  }

  /** After a successful run from any state, `HTMODE` is as the last header token chose
      it, or as it was if there is none. */
  lemma {:induction false} RunSection(st: State, tokens: seq<Token>)
    requires Run(st, tokens).Success?
    ensures Run(st, tokens).value.section == LastHeader(st.section, tokens)
    decreases |tokens|
  {
    if tokens != [] {
      ApplySection(st, tokens[0]);
      RunSection(Apply(st, tokens[0]).value, tokens[1..]);
    }
  }

  /** The opening tokens of a scan are those of its opening lines. */
  lemma {:induction false} AddressesScanned(lines: seq<string>, iface: string)
    ensures Addresses(Scanned(lines, iface)) == Openers(lines, iface)
    decreases |lines|
  {
    if lines != [] {
      LexValues(Normalize(lines[0]), iface);
      AddressesScanned(lines[1..], iface);
    }
  }

  /** A successful tokenization has one record per opening line, in input order, each
      with the address of its line and with the hexadecimal value of that address as
      `ID`. */
  lemma TokenizeRecords(lines: seq<string>, iface: string)
    requires Tokenize(lines, iface).Success?
    ensures Heads(Tokenize(lines, iface).value) == Openers(lines, iface)
  {
    TokenizeHeads(lines, iface);
    AddressesScanned(lines, iface);
  }

  /** The records of a tokenization are those the opening tokens append to none. */
  lemma TokenizeHeads(lines: seq<string>, iface: string)
    requires Tokenize(lines, iface).Success?
    ensures Heads(Tokenize(lines, iface).value) == Addresses(Scanned(lines, iface))
  {
    var tokens := Scanned(lines, iface);
    var run := Run(Start, tokens);
    assert run.Success? && Tokenize(lines, iface).value == run.value.wlans;
    RunRecords(Start, tokens);
    assert Heads(Start.wlans) + Addresses(tokens) == Addresses(tokens);
  }

  /** Every record's `ID` is the hexadecimal value of its address; a well-formed address
      gives `0 <= ID < 2^48`. */
  lemma TokenizeIds(lines: seq<string>, iface: string)
    requires Tokenize(lines, iface).Success?
    ensures var w := Tokenize(lines, iface).value;
      && (forall i :: 0 <= i < |w| ==> ParseHex(Replace(w[i].mac, ":", "")) == Some(w[i].id))
      && (forall i :: 0 <= i < |w| && IsMac(w[i].mac) ==> 0 <= w[i].id < 0x1_0000_0000_0000)
  {
    TokenizeRecords(lines, iface);
    OpenersIds(lines, iface);
    Ids(Tokenize(lines, iface).value, Openers(lines, iface));
  }

  /** Records whose addresses and `ID`s are those of opening lines carry the value of
      their address as `ID`. */
  lemma Ids(w: seq<Bss>, o: seq<(string, Option<int>)>)
    requires Heads(w) == o
    requires forall p :: p in o ==> p.1 == ParseHex(Replace(p.0, ":", ""))
    ensures forall i :: 0 <= i < |w| ==> ParseHex(Replace(w[i].mac, ":", "")) == Some(w[i].id)
    ensures forall i :: 0 <= i < |w| && IsMac(w[i].mac) ==> 0 <= w[i].id < 0x1_0000_0000_0000
  {
    forall i | 0 <= i < |w| ensures ParseHex(Replace(w[i].mac, ":", "")) == Some(w[i].id) {
      assert o[i] in o;
    }
    forall i | 0 <= i < |w| && IsMac(w[i].mac) ensures 0 <= w[i].id < 0x1_0000_0000_0000 {
      MacId(w[i].mac);
    }
  }
}
