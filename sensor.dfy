/** The temperature source (influx_insert.py:28-42): the 1-Wire kernel
    driver's `w1_slave` file for a DS18B20 sensor, read as a list of lines.
    The second line ends in a token `t=<thousandths of a degree>`; the
    parser takes the tenth blank-separated token of that line, drops its
    first two characters and reads the rest as a number. */
module Sensor {
  import opened Common
  import Text

  /** What `read_temperature` produces: a temperature in degrees Celsius,
      the `'inf'` marker for a missing sensor file, or the exception the
      parsing raises on a malformed file. */
  datatype Reading = Celsius(degrees: real) | Inf | Raised(error: PyError)

  /** The blank-separated token of line 2 that holds the temperature. */
  const TokenIndex := 9

  /** `read_temperature`, with the file given as its lines (`None` when the
      file does not exist). */
  function ReadTemperature(file: Option<seq<string>>): Reading
  {
    match file
    case None => Inf
    case Some(lines) =>
      if |lines| < 2 then Raised(IndexError)
      else
        var tokens := Text.Split(lines[1], ' ');
        if |tokens| <= TokenIndex then Raised(IndexError)
        else
          var token := tokens[TokenIndex];
          match Text.ParseSignedInt(token[if |token| < 2 then |token| else 2..])
          case None => Raised(ValueError)
          case Some(milli) => Celsius(milli as real / 1000.0)
  }

  /** The three outcomes of a read: the `'inf'` marker exactly when the file
      is missing; an `IndexError` exactly when there is no second line or it
      has fewer than ten blank-separated tokens; a `ValueError` exactly when
      the tenth token, less its first two characters, is not a number. */
  lemma ReadOutcomes(file: Option<seq<string>>)
    ensures ReadTemperature(file) == Inf <==> file.None?
    ensures ReadTemperature(file) == Raised(IndexError) <==>
      file.Some? && (|file.value| < 2 || |Text.Split(file.value[1], ' ')| <= TokenIndex)
    ensures ReadTemperature(file) == Raised(ValueError) <==>
      file.Some? && |file.value| >= 2 && |Text.Split(file.value[1], ' ')| > TokenIndex
      && var token := Text.Split(file.value[1], ' ')[TokenIndex];
         Text.ParseSignedInt(token[if |token| < 2 then |token| else 2..]).None?
  {
  }

  /** The two lines the driver writes: the nine scratchpad bytes in hex with
      the CRC verdict, then the same bytes with the temperature in
      thousandths of a degree. */
  function W1Slave(bytes: seq<string>, crc: string, crcOk: bool, milli: int): seq<string>
  {
    [ Text.Join(bytes, ' ') + " : crc=" + crc + " " + (if crcOk then "YES" else "NO") + "\n",
      Text.Join(bytes, ' ') + " t=" + Text.IntToString(milli) + "\n" ]
  }

  /** The reading depends on line 2 only through its tenth token. */
  lemma ReadToken(lines: seq<string>, token: string, milli: int)
    requires |lines| >= 2
    requires |Text.Split(lines[1], ' ')| > TokenIndex && Text.Split(lines[1], ' ')[TokenIndex] == token
    requires |token| >= 2 && Text.ParseSignedInt(token[2..]) == Some(milli)
    ensures ReadTemperature(Some(lines)) == Celsius(milli as real / 1000.0)
  {
  }

  lemma NoBlankInIntText(i: int)
    ensures ' ' !in Text.IntToString(i)
  {
  }

  /** The token `t=<milli>` as the driver ends line 2 with it. */
  lemma TemperatureToken(milli: int)
    ensures var token := "t=" + Text.IntToString(milli) + "\n";
      |token| >= 2 && Text.ParseSignedInt(token[2..]) == Some(milli)
  {
    var token := "t=" + Text.IntToString(milli) + "\n";
    assert token[2..] == Text.IntToString(milli) + "\n";
    Text.ParseIntToString(milli, "\n");
  }

  lemma Regroup(hex: string, digits: string)
    ensures hex + " t=" + digits + "\n" == hex + [' '] + ("t=" + digits + "\n")
  {
  }

  /** Line 2 is the join of the scratchpad bytes and the temperature token. */
  lemma Line2Joined(bytes: seq<string>, crc: string, crcOk: bool, milli: int)
    requires |bytes| == TokenIndex
    ensures W1Slave(bytes, crc, crcOk, milli)[1] == Text.Join(bytes + ["t=" + Text.IntToString(milli) + "\n"], ' ')
  {
    Regroup(Text.Join(bytes, ' '), Text.IntToString(milli));
    Text.JoinSnoc(bytes, "t=" + Text.IntToString(milli) + "\n", ' ');
  }

  /** Line 2 splits into the scratchpad bytes followed by the temperature token. */
  lemma Line2Tokens(bytes: seq<string>, crc: string, crcOk: bool, milli: int)
    requires |bytes| == TokenIndex
    requires forall i :: 0 <= i < |bytes| ==> ' ' !in bytes[i]
    ensures Text.Split(W1Slave(bytes, crc, crcOk, milli)[1], ' ') == bytes + ["t=" + Text.IntToString(milli) + "\n"]
  {
    var line := W1Slave(bytes, crc, crcOk, milli)[1];
    var last := "t=" + Text.IntToString(milli) + "\n";
    var parts := bytes + [last];
    Line2Joined(bytes, crc, crcOk, milli);
    assert forall i :: 0 <= i < |parts| ==> ' ' !in parts[i] by {
      NoBlankInIntText(milli);
      assert ' ' !in last;
    }
    Text.SplitJoin(parts, ' ');
  }

  /** Whatever the scratchpad bytes, a driver file reporting `milli`
      thousandths of a degree reads as `milli / 1000` degrees. The CRC
      verdict on line 1 is not consulted: a file whose CRC check failed
      reads the same way. */
  lemma ReadW1Slave(bytes: seq<string>, crc: string, crcOk: bool, milli: int)
    requires |bytes| == TokenIndex
    requires forall i :: 0 <= i < |bytes| ==> ' ' !in bytes[i]
    ensures ReadTemperature(Some(W1Slave(bytes, crc, crcOk, milli))) == Celsius(milli as real / 1000.0)
  {
    Line2Tokens(bytes, crc, crcOk, milli);
    TemperatureToken(milli);
    ReadToken(W1Slave(bytes, crc, crcOk, milli), "t=" + Text.IntToString(milli) + "\n", milli);
  }

  /** The scratchpad of a sensor reading 21.5 degrees, as hex bytes. */
  const ExampleBytes := ["2c", "01", "4b", "46", "7f", "ff", "0c", "10", "2d"]
}
