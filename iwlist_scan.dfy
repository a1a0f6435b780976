/** The parser of `iwlist <dev> scan` output (`parse_iwlist_scan`): a textual rewrite
    that puts one `key:value` pair on each line, a loop over the lines that opens a record
    at each `Address` line and stores the fields whose line starts with one of the kept
    words, and the table built from the records. */
module IwlistScan {
  import opened Wrappers
  import opened Text
  import opened ScanError
  import IwResolve

  /** A record cell: the text after the colon, or the number it was converted to. */
  datatype Value = Text(text: string) | Number(number: int)

  /** One access point: column name to cell. */
  type Record = map<string, Value>

  // ---------------------------------------------------------------------------------
  // The rewrite of the raw text
  // ---------------------------------------------------------------------------------

  /** `re.sub('\n +', '\n', ...)` on one line after the first: its leading spaces go. */
  function DropSpaces(s: string): (r: string)
    ensures |r| <= |s| && r == s[|s| - |r|..]
    ensures |r| == 0 || r[0] != ' '
    ensures forall i :: 0 <= i < |s| - |r| ==> s[i] == ' '
    decreases |s|
  {
    if |s| > 0 && s[0] == ' ' then DropSpaces(s[1..]) else s
  }

  const AddressMark: string := " - Address:"

  /** `pat` occurs in `s` at position `j`. */
  predicate At(s: string, pat: string, j: int)
  {
    0 <= j && j + |pat| <= |s| && s[j..j + |pat|] == pat
  }

  /** The start of the last occurrence of `pat` in `s` that starts at or before `end`. */
  function FindLast(s: string, pat: string, end: int): (r: Option<nat>)
    ensures r.Some? ==> r.value <= end && At(s, pat, r.value)
    ensures r.Some? ==> forall j :: r.value < j <= end ==> !At(s, pat, j)
    ensures r.None? ==> forall j :: j <= end ==> !At(s, pat, j)
    decreases end + 1
  {
    if end < 0 then None
    else if At(s, pat, end) then Some(end)
    else FindLast(s, pat, end - 1)
  }

  /** `re.sub('\n.* - Address:', '\nAddress:', ...)` on one line after the first: the
      greedy `.*` reaches the last ` - Address:` of the line, and everything up to and
      including it becomes `Address:`. */
  function Relabel(line: string): string
  {
    match FindLast(line, AddressMark, |line|)
    case Some(i) => "Address:" + line[i + |AddressMark|..]
    case None => line
  }

  /** The two regular-expression passes: both act on every line but the first, since
      each match starts at a line break. */
  function Prepass(text: string): string
  {
    var lines := Split(text, '\n');
    Join([lines[0]] + seq(|lines| - 1, i requires 0 <= i < |lines| - 1 => Relabel(DropSpaces(lines[i + 1]))), '\n')
  }

  /** The chain of literal `replace` calls, in the order the tool applies them. */
  function Rewritten(text: string): string
  {
    var t1 := Replace(Prepass(text), "Extra:", "");
    var t2 := Replace(t1, " level", "");
    var t3 := Replace(t2, "=", ":");
    var t4 := Replace(t3, "(Channel", "\nChannel:");
    var t5 := Replace(t4, ")", "");
    var t6 := Replace(t5, "\"", "");
    var t7 := Replace(t6, ": ", ":");
    var t8 := Replace(t7, " Mhz", "");
    var t9 := Replace(t8, " dBm", "");
    var t10 := Replace(t9, "  Signal", "\nSignal");
    Replace(t10, "  Noise", "\nNoise")
  }

  /** `wlans.split('\n')` after the rewrite. */
  function Lines(text: string): seq<string>
  {
    Split(Rewritten(text), '\n')
  }

  /** After the rewrite no line holds `=`, `)` or a double quote: every `key=value`
      has become `key:value` and the quotes and parentheses are gone. */
  lemma RewrittenClean(text: string)
    ensures forall line :: line in Lines(text) ==> '\n' !in line && '=' !in line && ')' !in line && '"' !in line
  {
    var t1 := Replace(Prepass(text), "Extra:", "");
    var t2 := Replace(t1, " level", "");
    var t3 := Replace(t2, "=", ":");
    var t4 := Replace(t3, "(Channel", "\nChannel:");
    var t5 := Replace(t4, ")", "");
    var t6 := Replace(t5, "\"", "");
    var t7 := Replace(t6, ": ", ":");
    var t8 := Replace(t7, " Mhz", "");
    var t9 := Replace(t8, " dBm", "");
    var t10 := Replace(t9, "  Signal", "\nSignal");
    var t11 := Replace(t10, "  Noise", "\nNoise");
    ReplaceRemoves(t2, '=', ":");
    ReplaceKeepsOut(t3, "(Channel", "\nChannel:", '=');
    ReplaceRemoves(t4, ')', "");
    ReplaceKeepsOut(t4, ")", "", '=');
    ReplaceRemoves(t5, '"', "");
    ReplaceKeepsOut(t5, "\"", "", '=');
    ReplaceKeepsOut(t5, "\"", "", ')');
    CleanTail(t6, '=');
    CleanTail(t6, ')');
    CleanTail(t6, '"');
    SplitJoin(t11, '\n');
    forall line | line in Lines(text)
      ensures '=' !in line && ')' !in line && '"' !in line
    {
      LineChars(t11, '\n', line);
    }
  }

  /** The last five replacements bring in no `=`, `)` or double quote. */
  lemma CleanTail(t6: string, c: char)
    requires c == '=' || c == ')' || c == '"'
    requires c !in t6
    ensures c !in Replace(Replace(Replace(Replace(Replace(t6, ": ", ":"), " Mhz", ""), " dBm", ""), "  Signal", "\nSignal"), "  Noise", "\nNoise")
  {
    var t7 := Replace(t6, ": ", ":");
    var t8 := Replace(t7, " Mhz", "");
    var t9 := Replace(t8, " dBm", "");
    var t10 := Replace(t9, "  Signal", "\nSignal");
    ReplaceKeepsOut(t6, ": ", ":", c);
    ReplaceKeepsOut(t7, " Mhz", "", c);
    ReplaceKeepsOut(t8, " dBm", "", c);
    ReplaceKeepsOut(t9, "  Signal", "\nSignal", c);
    ReplaceKeepsOut(t10, "  Noise", "\nNoise", c);
  }

  /** A piece of a split holds only characters of the split text. */
  lemma {:induction false} LineChars(s: string, c: char, p: string)
    requires p in Split(s, c)
    ensures forall ch :: ch in p ==> ch in s
    decreases |s|
  {
    if s != [] {
      var rest := Split(s[1..], c);
      if s[0] == c {
        if p != [] {
          assert p in rest;
          LineChars(s[1..], c, p);
        }
      } else if p == [s[0]] + rest[0] {
        LineChars(s[1..], c, rest[0]);
      } else {
        assert p in rest[1..];
        assert p in rest;
        LineChars(s[1..], c, p);
      }
    }
  }

  // ---------------------------------------------------------------------------------
  // The loop over the lines
  // ---------------------------------------------------------------------------------

  /** The prefixes of the lines that are kept. */
  const Wordlist: seq<string> := ["MAC", "Address", "ESSID", "Frequency", "Signal", "center1", "chanbw", "Channel"]

  /** The keys whose value `int()` converts. */
  const NumericKeys: seq<string> := ["center1", "chanbw", "Signal", "Channel"]

  /** The line starts with a kept word. */
  predicate Listed(line: string)
  {
    exists w :: w in Wordlist && StartsWith(line, w)
  }

  /** The inner loop over the word list, stopping at the first word the line starts with. */
  method SeekWord(line: string) returns (flag: bool)
    ensures flag <==> Listed(line)
  {
    flag := false;
    for j := 0 to |Wordlist|
      invariant !flag
      invariant forall k :: 0 <= k < j ==> !StartsWith(line, Wordlist[k])
    {
      if StartsWith(line, Wordlist[j]) {
        flag := true;
        break;
      }
    }
  }

  /** The value stored under `k`: `int(v)` for the numeric keys, the `Quality` reading,
      `int(float(v) * 1000)` for `Frequency` (GHz to MHz), the text otherwise. */
  function Convert(k: string, v: string): Result<Value, Error>
  {
    if k in NumericKeys then
      var n :- ParseInt(v).ToResult(BadNumber(v));
      Success(Number(n))
    else if k == "Quality" then
      var n :- ParseInt(Replace(v, "/94", "")).ToResult(BadNumber(v));
      Success(Number(n))
    else if k == "Frequency" then
      var d :- ParseDecimal(Replace(v, " GHz", "")).ToResult(BadNumber(v));
      Success(Number(Truncate(d, 3)))
    else Success(Text(v))
  }

  /** A key that starts with a kept word. */
  predicate KeptKey(k: string)
  {
    exists w :: w in Wordlist && StartsWith(k, w)
  }

  /** An `Address` line: the address after the first colon and the identifier
      `int(v.replace(':', ''), 16)`. */
  function Address(line: string): Result<(string, int), Error>
  {
    var kv :- SplitFirst(line, ':').ToResult(BadField(line));
    var id :- ParseHex(Replace(kv.1, ":", "")).ToResult(BadNumber(kv.1));
    Success((kv.1, id))
  }

  /** A kept line: its key and converted value. The key starts with the kept word, so it
      is never `ID` and never `Quality`. */
  function Entry(line: string): (r: Result<(string, Value), Error>)
    requires Listed(line)
    ensures r.Success? ==> KeptKey(r.value.0) && r.value.0 != "ID" && r.value.0 != "Quality"
  {
    var kv :- SplitFirst(line, ':').ToResult(BadField(line));
    KeyKept(line, kv.0, kv.1);
    var value :- Convert(kv.0, kv.1);
    Success((kv.0, value))
  }

  /** What one line does once the loop body has made its tests. */
  datatype Kind =
    | Opens(address: Result<(string, int), Error>)
    | Skipped
    | Stores(line: string, entry: Result<(string, Value), Error>)

  /** A stored key is a kept key, so never the identifier. */
  predicate Sound(kind: Kind)
  {
    kind.Stores? && kind.entry.Success? ==> KeptKey(kind.entry.value.0) && kind.entry.value.0 != "ID"
  }

  /** The tests of the loop body, in order: an `Address` line, a line starting with no
      kept word, a kept line. */
  function Classify(raw: string): (r: Kind)
    ensures Sound(r)
  {
    var line := RStrip(raw);
    if StartsWith(line, "Address") then Opens(Address(line))
    else if !Listed(line) then Skipped
    else Stores(line, Entry(line))
  }

  /** Every line classified. */
  function Kinds(lines: seq<string>): (r: seq<Kind>)
    ensures |r| == |lines|
    ensures forall k :: k in r ==> Sound(k)
  {
    if lines == [] then [] else [Classify(lines[0])] + Kinds(lines[1..])
  }

  /** The record an `Address` line opens: `{'MAC': v.lower()}`, then its `ID`. */
  function Opened(v: string, id: int): Record
  {
    map["MAC" := Text(Lower(v)), "ID" := Number(id)]
  }

  /** The effect of a classified line on the records so far. */
  function Apply(nets: seq<Record>, kind: Kind): Result<seq<Record>, Error>
  {
    match kind
    case Opens(o) =>
      var a :- o;
      Success(nets + [Opened(a.0, a.1)])
    case Skipped => Success(nets)
    case Stores(line, e) =>
      var kv :- e;
      if nets == [] then Failure(NoOpenRecord(line))
      else Success(nets[..|nets| - 1] + [nets[|nets| - 1][kv.0 := kv.1]])
  }

  /** Every record carries its numeric identifier. */
  predicate HasIds(nets: seq<Record>)
  {
    forall r: Record :: r in nets ==> "ID" in r && r["ID"].Number?
  }

  /** The loop over all classified lines, from the records `nets`. */
  function Collect(nets: seq<Record>, kinds: seq<Kind>): (r: Result<seq<Record>, Error>)
    requires HasIds(nets) && forall k :: k in kinds ==> Sound(k)
    ensures r.Success? ==> HasIds(r.value)
    decreases |kinds|
  {
    if kinds == [] then Success(nets)
    else
      var next :- Apply(nets, kinds[0]);
      ApplyIds(nets, kinds[0]);
      Collect(next, kinds[1..])
  }

  /** The loop body on one line, as the tool writes it. */
  method LineStep(nets: seq<Record>, raw: string) returns (r: Result<seq<Record>, Error>)
    ensures r == Apply(nets, Classify(raw))
  {
    var line := RStrip(raw);
    ghost var kind := Classify(raw);
    if StartsWith(line, "Address") {
      assert kind == Opens(Address(line));
      var kv := SplitFirst(line, ':');
      if kv.None? {
        return Failure(BadField(line));
      }
      var v := kv.value.1;
      var id := ParseHex(Replace(v, ":", ""));
      if id.None? {
        return Failure(BadNumber(v));
      }
      return Success(nets + [Opened(v, id.value)]);
    }
    var flag := SeekWord(line);
    if !flag {
      assert kind == Skipped;
      return Success(nets);
    }
    assert kind == Stores(line, Entry(line));
    var kv := SplitFirst(line, ':');
    if kv.None? {
      return Failure(BadField(line));
    }
    var value := Convert(kv.value.0, kv.value.1);
    if value.Failure? {
      return Failure(value.error);
    }
    assert Entry(line) == Success((kv.value.0, value.value));
    if nets == [] {
      return Failure(NoOpenRecord(line));
    }
    return Success(nets[..|nets| - 1] + [nets[|nets| - 1][kv.value.0 := value.value]]);
  }

  /** The loop as the tool runs it: the records grow line by line. */
  method CollectLines(lines: seq<string>) returns (r: Result<seq<Record>, Error>)
    ensures r == Collect([], Kinds(lines))
  {
    var nets: seq<Record> := [];
    for i := 0 to |lines|
      invariant HasIds(nets)
      invariant Collect([], Kinds(lines)) == Collect(nets, Kinds(lines[i..]))
    {
      assert lines[i..][1..] == lines[i + 1..];
      assert Kinds(lines[i..]) == [Classify(lines[i])] + Kinds(lines[i + 1..]);
      var next := LineStep(nets, lines[i]);
      if next.Failure? {
        return next;
      }
      ApplyIds(nets, Classify(lines[i]));
      nets := next.value;
    }
    r := Success(nets);
  }

  // ---------------------------------------------------------------------------------
  // Facts about one line
  // ---------------------------------------------------------------------------------

  /** Every kept word is at least three letters long and holds no colon; which words
      share a first letter. */
  lemma WordShape(w: string)
    requires w in Wordlist
    ensures |w| >= 3 && ':' !in w
    ensures w[0] in "MAEFScC"
    ensures w[0] == 'S' ==> |w| == 6
    ensures w[0] == 'c' ==> w[1] == 'e' || (|w| >= 5 && w[4] == 'b')
  {
    if w == "MAC" {
    } else if w == "Address" {
    } else if w == "ESSID" {
    } else if w == "Frequency" {
    } else if w == "Signal" {
    } else if w == "center1" {
    } else if w == "chanbw" {
    } else {
      assert w == "Channel";
    }
  }

  /** The key of a kept line starts with the kept word, since no kept word holds a colon. */
  lemma KeyHead(line: string, k: string, v: string, w: string)
    requires w in Wordlist && StartsWith(line, w)
    requires SplitFirst(line, ':') == Some((k, v))
    ensures StartsWith(k, w)
  {
    WordShape(w);
    assert line == k + [':'] + v;
    assert line[|k|] == ':';
    assert forall i :: 0 <= i < |w| ==> line[i] == w[i];
    assert |w| <= |k|;
    assert k[..|w|] == line[..|w|];
  }

  /** No kept word starts `ID` or `Quality`: a kept line never overwrites the identifier,
      and the `Quality` conversion is never reached. */
  lemma NotKept(k: string)
    requires KeptKey(k)
    ensures k != "ID" && k != "Quality"
  {
    var w :| w in Wordlist && StartsWith(k, w);
    WordShape(w);
    assert k[0] == w[0];
  }

  /** The key of a kept line is a kept key, and neither `ID` nor `Quality`. */
  lemma KeyKept(line: string, k: string, v: string)
    requires Listed(line) && SplitFirst(line, ':') == Some((k, v))
    ensures KeptKey(k) && k != "ID" && k != "Quality"
  {
    var w :| w in Wordlist && StartsWith(line, w);
    KeyHead(line, k, v, w);
    NotKept(k);
  }

  /** A pass keeps every identifier in place. */
  lemma ApplyIds(nets: seq<Record>, kind: Kind)
    requires HasIds(nets) && Sound(kind)
    ensures Apply(nets, kind).Success? ==> HasIds(Apply(nets, kind).value)
  {
    if Apply(nets, kind).Success? {
      var next := Apply(nets, kind).value;
      forall r: Record | r in next
        ensures "ID" in r && r["ID"].Number?
      {
        var i :| 0 <= i < |next| && next[i] == r;
        if kind.Opens? && i < |nets| {
          assert next[..|nets|][i] == r;
        } else if kind.Stores? && i < |nets| - 1 {
          assert next[..|nets| - 1][i] == r;
        }
      }
    }
  }

  /** An `Address` line: no colon fails, an address that is not hexadecimal fails, and
      otherwise the address and its value in hexadecimal. */
  lemma AddressParts(line: string)
    ensures SplitFirst(line, ':').None? ==> Address(line) == Failure(BadField(line))
    ensures SplitFirst(line, ':').Some? ==>
      var v := SplitFirst(line, ':').value.1;
      && (ParseHex(Replace(v, ":", "")).None? ==> Address(line) == Failure(BadNumber(v)))
      && (ParseHex(Replace(v, ":", "")).Some? ==> Address(line) == Success((v, ParseHex(Replace(v, ":", "")).value)))
  {
  }

  /** An `Address` line opens a record holding the lower-cased address and the address
      read as a hexadecimal number, and changes no earlier record. */
  lemma StepAddress(nets: seq<Record>, raw: string)
    requires StartsWith(RStrip(raw), "Address")
    ensures Classify(raw) == Opens(Address(RStrip(raw)))
    ensures Address(RStrip(raw)).Failure? ==> Apply(nets, Classify(raw)) == Failure(Address(RStrip(raw)).error)
    ensures Address(RStrip(raw)).Success? ==>
      var (v, id) := Address(RStrip(raw)).value;
      Apply(nets, Classify(raw)) == Success(nets + [Opened(v, id)])
  {
  }

  /** The opened record has exactly the keys `MAC` and `ID`, an address with no upper-case
      letter and the identifier it was given. */
  lemma OpenedRecord(v: string, id: int)
    ensures Opened(v, id).Keys == {"MAC", "ID"}
    ensures Opened(v, id)["ID"] == Number(id)
    ensures Opened(v, id)["MAC"].Text? && |Opened(v, id)["MAC"].text| == |v|
    ensures forall i :: 0 <= i < |v| ==> !('A' <= Opened(v, id)["MAC"].text[i] <= 'Z')
  {
  }

  /** The address line of a well-formed MAC address always opens a record, and its
      identifier is a 48-bit number. */
  lemma AddressMac(line: string)
    requires SplitFirst(line, ':').Some? && IsMac(SplitFirst(line, ':').value.1)
    ensures Address(line).Success?
    ensures 0 <= Address(line).value.1 < 0x1_0000_0000_0000
  {
    MacId(SplitFirst(line, ':').value.1);
  }

  /** A line that is neither an `Address` line nor starts with a kept word is skipped. */
  lemma StepSkips(nets: seq<Record>, raw: string)
    requires !StartsWith(RStrip(raw), "Address") && !Listed(RStrip(raw))
    ensures Classify(raw) == Skipped
    ensures Apply(nets, Classify(raw)) == Success(nets)
  {
  }

  /** A kept line that is not an `Address` line stores its entry. */
  lemma StepKept(raw: string)
    requires !StartsWith(RStrip(raw), "Address") && Listed(RStrip(raw))
    ensures Classify(raw) == Stores(RStrip(raw), Entry(RStrip(raw)))
  {
  }

  /** A kept line: no colon fails, else the key before the first colon (a kept key) and
      the converted text after it. */
  lemma EntryParts(line: string)
    requires Listed(line)
    ensures SplitFirst(line, ':').None? ==> Entry(line) == Failure(BadField(line))
    ensures SplitFirst(line, ':').Some? ==>
      var kv := SplitFirst(line, ':').value;
      && KeptKey(kv.0)
      && (Convert(kv.0, kv.1).Failure? ==> Entry(line) == Failure(Convert(kv.0, kv.1).error))
      && (Convert(kv.0, kv.1).Success? ==> Entry(line) == Success((kv.0, Convert(kv.0, kv.1).value)))
  {
    if SplitFirst(line, ':').Some? {
      var kv := SplitFirst(line, ':').value;
      KeyKept(line, kv.0, kv.1);
    }
  }

  /** A stored entry goes under its key in the last record and nothing else changes;
      with no record open the pass fails. */
  lemma ApplyStores(nets: seq<Record>, line: string, k: string, value: Value)
    ensures nets == [] ==> Apply(nets, Stores(line, Success((k, value)))) == Failure(NoOpenRecord(line))
    ensures nets != [] ==>
      var next := Apply(nets, Stores(line, Success((k, value))));
      && next.Success? && |next.value| == |nets|
      && next.value[..|nets| - 1] == nets[..|nets| - 1]
      && next.value[|nets| - 1] == nets[|nets| - 1][k := value]
  {
    if nets != [] {
      var next := Apply(nets, Stores(line, Success((k, value)))).value;
      assert next[..|nets| - 1] == nets[..|nets| - 1];
    }
  }

  /** `center1`, `chanbw`, `Signal` and `Channel` hold the number `int()` reads. */
  lemma ConvertNumeric(k: string, v: string)
    requires k in NumericKeys
    ensures ParseInt(v).None? ==> Convert(k, v) == Failure(BadNumber(v))
    ensures ParseInt(v).Some? ==> Convert(k, v) == Success(Number(ParseInt(v).value))
  {
  }

  /** `Frequency` holds its GHz reading in MHz, truncated toward zero. */
  lemma ConvertFrequency(v: string)
    ensures var d := ParseDecimal(Replace(v, " GHz", ""));
      && (d.None? ==> Convert("Frequency", v) == Failure(BadNumber(v)))
      && (d.Some? ==> Convert("Frequency", v) == Success(Number(Truncate(d.value, 3))))
  {
    assert "Frequency" !in NumericKeys;
  }

  /** A reading `w.f GHz` is stored as `w` thousand plus the first three fraction digits,
      padded with zeros: the frequency in MHz, truncated toward zero. */
  lemma FrequencyText(v: string, whole: string, frac: string)
    requires |whole| > 0 && AllDigits(whole) && AllDigits(frac)
    requires v == whole + "." + frac + " GHz"
    ensures Convert("Frequency", v) == Success(Number(DecValue(whole) * 1000 + DecValue(FracDigits(frac, 3))))
  {
    var d := whole + "." + frac;
    assert v == d + " GHz";
    DecimalNoSpace(whole, frac);
    ReplaceSuffix(d, " GHz");
    DecimalParse(whole, frac);
    assert ParseDecimal(Replace(v, " GHz", "")) == Some(Decimal(false, whole, frac));
    ConvertFrequency(v);
    assert Truncate(Decimal(false, whole, frac), 3) == DecValue(whole) * 1000 + DecValue(FracDigits(frac, 3)) by {
      assert Pow(10, 3) == 1000;
    }
  }

  /** `Frequency:5.18 GHz` is stored as 5180. */
  lemma FrequencyExample(v: string, whole: string, frac: string)
    requires whole == "5" && frac == "18" && v == whole + "." + frac + " GHz"
    ensures Convert("Frequency", v) == Success(Number(5180))
  {
    FrequencyText(v, whole, frac);
    FracExample(frac);
    assert DecValue(whole) == 5 by { assert whole[..0] == ""; }
  }

  /** The digits `18` stand for 180 thousandths. */
  lemma FracExample(frac: string)
    requires frac == "18"
    ensures DecValue(FracDigits(frac, 3)) == 180
  {
    var tail := frac[1..];
    assert tail == "8" && tail[1..] == [];
    assert FracDigits(tail[1..], 1) == "0";
    assert FracDigits(tail, 2) == "80";
    var r := FracDigits(frac, 3);
    assert r == "180";
    var r2, r1 := r[..2], r[..1];
    assert r2 == "18" && r2[..1] == r1 && r1 == "1" && r1[..0] == "";
    assert DecValue(r1) == 1;
    assert DecValue(r2) == 18;
  }

  /** Any other key holds its text unchanged. */
  lemma ConvertText(k: string, v: string)
    requires k !in NumericKeys && k != "Quality" && k != "Frequency"
    ensures Convert(k, v) == Success(Text(v))
  {
  }

  /** A GHz reading with three fraction digits multiplied by 1000 is the exact MHz value. */
  lemma FrequencyMhz(whole: string, frac: string)
    requires |whole| > 0 && AllDigits(whole) && |frac| == 3 && AllDigits(frac)
    ensures Truncate(Decimal(false, whole, frac), 3) == DecValue(whole) * 1000 + DecValue(frac)
  {
    assert FracDigits(frac, 3) == frac by {
      assert FracDigits(frac[2..], 1) == [frac[2]] + FracDigits([], 0);
      assert frac == [frac[0]] + [frac[1]] + [frac[2]];
    }
    assert Pow(10, 3) == 1000;
  }

  // ---------------------------------------------------------------------------------
  // Facts about the whole loop
  // ---------------------------------------------------------------------------------

  /** The identifier a classified line opens a record with, if it opens one. */
  function OpenerOf(kind: Kind): seq<int>
  {
    if kind.Opens? && kind.address.Success? then [kind.address.value.1] else []
  }

  /** The identifiers of the `Address` lines, in order. */
  function Openers(kinds: seq<Kind>): seq<int>
  {
    if kinds == [] then [] else OpenerOf(kinds[0]) + Openers(kinds[1..])
  }

  /** The identifier an `Address` line contributes is its address read in hexadecimal;
      any other line contributes none. */
  lemma OpenerLine(raw: string)
    ensures !StartsWith(RStrip(raw), "Address") ==> OpenerOf(Classify(raw)) == []
    ensures StartsWith(RStrip(raw), "Address") ==>
      OpenerOf(Classify(raw)) == if Address(RStrip(raw)).Success? then [Address(RStrip(raw)).value.1] else []
  {
  }

  /** The identifiers of the records, in order. */
  function Ids(nets: seq<Record>): (r: seq<int>)
    requires HasIds(nets)
    ensures |r| == |nets|
    ensures forall i :: 0 <= i < |nets| ==> r[i] == nets[i]["ID"].number
  {
    seq(|nets|, i requires 0 <= i < |nets| => nets[i]["ID"].number)
  }

  /** One pass adds the identifier of an `Address` line and keeps the others. */
  lemma ApplyOpeners(nets: seq<Record>, kind: Kind)
    requires HasIds(nets) && Sound(kind) && Apply(nets, kind).Success?
    ensures HasIds(Apply(nets, kind).value)
    ensures Ids(Apply(nets, kind).value) == Ids(nets) + OpenerOf(kind)
  {
    ApplyIds(nets, kind);
    var next := Apply(nets, kind).value;
    if kind.Stores? {
      assert forall i :: 0 <= i < |nets| - 1 ==> next[i] == next[..|nets| - 1][i];
    } else if kind.Opens? {
      assert forall i :: 0 <= i < |nets| ==> next[i] == next[..|nets|][i];
    }
  }

  /** The loop opens exactly one record per `Address` line, in order, and no later line
      changes an identifier. */
  lemma {:induction false} CollectOpeners(nets: seq<Record>, kinds: seq<Kind>)
    requires HasIds(nets) && (forall k :: k in kinds ==> Sound(k)) && Collect(nets, kinds).Success?
    ensures Ids(Collect(nets, kinds).value) == Ids(nets) + Openers(kinds)
    decreases |kinds|
  {
    if kinds != [] {
      assert kinds[0] in kinds;
      var next := Apply(nets, kinds[0]).value;
      ApplyOpeners(nets, kinds[0]);
      assert forall k :: k in kinds[1..] ==> k in kinds;
      assert Collect(nets, kinds) == Collect(next, kinds[1..]);
      CollectOpeners(next, kinds[1..]);
      assert Openers(kinds) == OpenerOf(kinds[0]) + Openers(kinds[1..]);
      assert Ids(nets) + Openers(kinds) == (Ids(nets) + OpenerOf(kinds[0])) + Openers(kinds[1..]);
    }
  }

  /** Every key the loop stores is `MAC`, `ID` or starts with a kept word. */
  predicate KeysKept(nets: seq<Record>)
  {
    forall r: Record, k: string :: r in nets && k in r ==> k == "MAC" || k == "ID" || KeptKey(k)
  }

  lemma ApplyKeys(nets: seq<Record>, kind: Kind)
    requires KeysKept(nets) && Sound(kind) && Apply(nets, kind).Success?
    ensures KeysKept(Apply(nets, kind).value)
  {
    var next := Apply(nets, kind).value;
    forall r: Record, k: string | r in next && k in r
      ensures k == "MAC" || k == "ID" || KeptKey(k)
    {
      var i :| 0 <= i < |next| && next[i] == r;
      if kind.Opens? && i < |nets| {
        assert next[..|nets|][i] == r;
      } else if kind.Stores? && i < |nets| - 1 {
        assert next[..|nets| - 1][i] == r;
      } else if kind.Stores? {
        assert nets[|nets| - 1] in nets;
      }
    }
  }

  lemma {:induction false} CollectKeys(nets: seq<Record>, kinds: seq<Kind>)
    requires HasIds(nets) && KeysKept(nets) && (forall k :: k in kinds ==> Sound(k)) && Collect(nets, kinds).Success?
    ensures KeysKept(Collect(nets, kinds).value)
    decreases |kinds|
  {
    if kinds != [] {
      assert kinds[0] in kinds;
      var next := Apply(nets, kinds[0]).value;
      ApplyKeys(nets, kinds[0]);
      ApplyIds(nets, kinds[0]);
      CollectKeys(next, kinds[1..]);
    }
  }

  // ---------------------------------------------------------------------------------
  // The table
  // ---------------------------------------------------------------------------------

  /** One row of the table: the `ID` index, the renamed columns, the band edges and the
      scan time. A cell the record lacks (`NaN` or `None` in pandas) is an absent key; a
      band edge is absent when `center1` or `chanbw` is. */
  datatype IwlistNet = IwlistNet(id: int, columns: map<string, Value>, fmin: Option<int>, fmax: Option<int>, time: int)

  /** `df.rename(columns={"center1": "Fc", "ESSID": "SSID", "Frequency": "freq_20",
      "Channel": "channel_20"})`. */
  function Renamed(k: string): string
  {
    if k == "center1" then "Fc"
    else if k == "ESSID" then "SSID"
    else if k == "Frequency" then "freq_20"
    else if k == "Channel" then "channel_20"
    else k
  }

  /** The new column names. */
  predicate IsTarget(k: string)
  {
    k == "Fc" || k == "SSID" || k == "freq_20" || k == "channel_20"
  }

  /** The columns of a row: every key but the `ID` index, renamed. A key that already
      bears a new name would collide with a renamed one; no record of the loop has one
      (`TargetsAbsent`). */
  function Columns(r: Record): map<string, Value>
  {
    map k | k in r && k != "ID" && !IsTarget(k) :: Renamed(k) := r[k]
  }

  /** The centre frequency and width of a record in MHz, when it has both as numbers. */
  function Centre(r: Record): Option<(int, int)>
  {
    if "center1" in r && r["center1"].Number? && "chanbw" in r && r["chanbw"].Number?
    then Some((r["center1"].number, r["chanbw"].number)) else None
  }

  /** `df.center1 - df.chanbw//2` and `df.center1 + df.chanbw//2`; `//` by 2 floors like
      Dafny's division by a positive number. */
  function Row(r: Record, time: int): IwlistNet
    requires "ID" in r && r["ID"].Number?
  {
    var c := Centre(r);
    IwlistNet(r["ID"].number, Columns(r),
              if c.Some? then Some(c.value.0 - c.value.1 / 2) else None,
              if c.Some? then Some(c.value.0 + c.value.1 / 2) else None,
              time)
  }

  /** The DataFrame part: no record gives `None`; a column that no record has fails
      when it is read, `center1` first. */
  function Table(nets: seq<Record>, time: int): Result<Option<seq<IwlistNet>>, Error>
    requires HasIds(nets)
  {
    if nets == [] then Success(None)
    else if forall r: Record :: r in nets ==> "center1" !in r then Failure(MissingColumn("center1"))
    else if forall r: Record :: r in nets ==> "chanbw" !in r then Failure(MissingColumn("chanbw"))
    else Success(Some(seq(|nets|, i requires 0 <= i < |nets| => Row(nets[i], time))))
  }

  /** The whole parser, with the clock reading `now` for a missing `mtime`. */
  function IwlistTable(text: string, mtime: Option<int>, now: int): Result<Option<seq<IwlistNet>>, Error>
  {
    var nets :- Collect([], Kinds(Lines(text)));
    Table(nets, IwResolve.TimeOf(mtime, now))
  }

  /** The parser as the tool runs it. */
  method ParseIwlistScan(text: string, mtime: Option<int>, now: int) returns (r: Result<Option<seq<IwlistNet>>, Error>)
    ensures r == IwlistTable(text, mtime, now)
  {
    var nets := CollectLines(Lines(text));
    if nets.Failure? {
      return Failure(nets.error);
    }
    r := Table(nets.value, IwResolve.TimeOf(mtime, now));
  }

  /** A row per record, in order, each with the record's identifier, the same time, the
      band edges Fc -/+ chanbw//2 when both are known, and the renamed cells. */
  lemma TableRows(nets: seq<Record>, time: int)
    requires HasIds(nets) && Table(nets, time).Success? && Table(nets, time).value.Some?
    ensures var rows := Table(nets, time).value.value;
      && |rows| == |nets|
      && forall i :: 0 <= i < |rows| ==>
        && rows[i].id == nets[i]["ID"].number
        && rows[i].time == time
        && (Centre(nets[i]).Some? ==>
              var (fc, bw) := Centre(nets[i]).value;
              rows[i].fmin == Some(fc - bw / 2) && rows[i].fmax == Some(fc + bw / 2))
        && (Centre(nets[i]).None? ==> rows[i].fmin.None? && rows[i].fmax.None?)
  {
    var rows := Table(nets, time).value.value;
    assert rows == seq(|nets|, i requires 0 <= i < |nets| => Row(nets[i], time));
    forall i | 0 <= i < |rows|
      ensures rows[i] == Row(nets[i], time)
    {
    }
  }

  /** The table is `None` exactly when no record was opened, and fails exactly when some
      record exists but no record has `center1`, or none has `chanbw`. */
  lemma TableOutcome(nets: seq<Record>, time: int)
    requires HasIds(nets)
    ensures Table(nets, time) == Success(None) <==> nets == []
    ensures Table(nets, time).Failure? <==>
      nets != [] && ((forall r: Record :: r in nets ==> "center1" !in r) || (forall r: Record :: r in nets ==> "chanbw" !in r))
  {
  }

  /** Each kept key's cell moves to the key's new name, and every column of the row
      comes from a key of the record other than `ID`. */
  lemma ColumnsRenamed(r: Record)
    ensures forall k :: k in r && k != "ID" && !IsTarget(k) ==> Renamed(k) in Columns(r) && Columns(r)[Renamed(k)] == r[k]
    ensures forall c :: c in Columns(r) ==> exists k :: k in r && k != "ID" && Renamed(k) == c
  {
  }

  /** None of the new column names starts with a kept word. */
  lemma TargetNotKept(k: string, w: string)
    requires IsTarget(k) && w in Wordlist
    ensures !StartsWith(k, w)
  {
    WordShape(w);
  }

  /** No record of the loop has a key bearing one of the new column names. */
  lemma TargetsAbsent(nets: seq<Record>)
    requires KeysKept(nets)
    ensures forall r: Record, k: string :: r in nets && k in r ==> !IsTarget(k)
  {
    forall r: Record, k: string | r in nets && k in r
      ensures !IsTarget(k)
    {
      if k != "MAC" && k != "ID" && IsTarget(k) {
        var w :| w in Wordlist && StartsWith(k, w);
        TargetNotKept(k, w);
      }
    }
  }

  /** The whole parser: `None` exactly when the text has no `Address` line that parses;
      otherwise one row per `Address` line, in order, identified by the address read
      as a hexadecimal number. */
  lemma IwlistRows(text: string, mtime: Option<int>, now: int)
    ensures Collect([], Kinds(Lines(text))).Success? ==>
      && (IwlistTable(text, mtime, now) == Success(None) <==> Openers(Kinds(Lines(text))) == [])
      && (IwlistTable(text, mtime, now).Success? && IwlistTable(text, mtime, now).value.Some? ==>
            var rows := IwlistTable(text, mtime, now).value.value;
            && |rows| == |Openers(Kinds(Lines(text)))|
            && forall i :: 0 <= i < |rows| ==>
                 rows[i].id == Openers(Kinds(Lines(text)))[i] && rows[i].time == IwResolve.TimeOf(mtime, now))
  {
    var kinds := Kinds(Lines(text));
    var time := IwResolve.TimeOf(mtime, now);
    if Collect([], kinds).Success? {
      assert IwlistTable(text, mtime, now) == Table(Collect([], kinds).value, time);
      CollectTable(kinds, time);
    }
  }

  /** `IwlistRows` for any classified lines. */
  lemma CollectTable(kinds: seq<Kind>, time: int)
    requires (forall k :: k in kinds ==> Sound(k)) && Collect([], kinds).Success?
    ensures var t := Table(Collect([], kinds).value, time);
      && (t == Success(None) <==> Openers(kinds) == [])
      && (t.Success? && t.value.Some? ==>
            && |t.value.value| == |Openers(kinds)|
            && forall i :: 0 <= i < |t.value.value| ==> t.value.value[i].id == Openers(kinds)[i] && t.value.value[i].time == time)
  {
    var nets := Collect([], kinds).value;
    CollectOpeners([], kinds);
    assert Ids([]) == [];
    assert Ids(nets) == Openers(kinds);
    TableOutcome(nets, time);
    if Table(nets, time).Success? && Table(nets, time).value.Some? {
      TableRows(nets, time);
    }
  }

  /** Every key of every record the parser builds is kept under its new name. */
  lemma IwlistColumns(text: string)
    requires Collect([], Kinds(Lines(text))).Success?
    ensures forall r: Record, k: string :: r in Collect([], Kinds(Lines(text))).value && k in r ==> !IsTarget(k)
  {
    CollectKeys([], Kinds(Lines(text)));
    TargetsAbsent(Collect([], Kinds(Lines(text))).value);
  }
}
