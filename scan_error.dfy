/** The exceptions that abort a parse in the scanner tool, one constructor each.
    Each parse either returns its whole output or the first of these it meets. */
module ScanError {

  datatype Error =
      /** `wlans[-1]` on an empty record list (IndexError). */
    | NoOpenRecord(line: string)
      /** `int(...)` or `float(...)` rejects the text (ValueError). */
    | BadNumber(text: string)
      /** A `Country:` line with no `Environment: ` part (IndexError on `tmp[1]`). */
    | MissingEnvironment(line: string)
      /** A line that does not split into exactly the expected parts (ValueError on unpacking). */
    | BadField(line: string)
      /** A record lacks a key the code reads or deletes (KeyError). */
    | MissingKey(key: string)
      /** No plan entry has this centre frequency (IndexError on `.index[0]`). */
    | NoPlanChannel(freq: int)
      /** No plan entry has this channel number (KeyError on `fplan.loc`). */
    | UnknownChannel(channel: int)
      /** The HT primary channel differs from the channel of `freq_20` (AssertionError). */
    | PrimaryMismatch(channel20: int, primary: int)
      /** The DS parameter set channel differs from the HT primary channel (AssertionError). */
    | DsMismatch(primary: int, ds: int)
      /** VHT segment 2 is not "0" or a segment 3 is present (AssertionError). */
    | VhtSegments
      /** The VHT width disagrees with the plan width of segment 1 (AssertionError). */
    | VhtBandwidth(computed: int, plan: int)
      /** The VHT channel width value is empty (IndexError on `[0]`). */
    | EmptyWidth
      /** A DataFrame column that no record has (AttributeError). */
    | MissingColumn(name: string)
}
