/**
 * Cross-process transport of a security config. The platform parcel is
 * abstracted to a sequence of typed tokens with a read position; the config
 * writes its fields to it, and reads them back, in one fixed order:
 * PMK, passphrase, PMKID, cipher suite.
 */
module ConfigParcel {
  import opened Wrappers
  import opened AwareUtils
  import opened SecurityConfig

  /** One primitive value written to a parcel. */
  datatype Token =
    | ByteArrayToken(bytes: Bytes)
    | StringToken(text: Text)
    | IntToken(number: int32)

  /** A parcel: the tokens written so far and the position of the next read. */
  class Parcel {
    var tokens: seq<Token>
    var readPos: nat

    ghost predicate Valid()
      reads this
    {
      readPos <= |tokens|
    }

    constructor ()
      ensures Valid() && tokens == [] && readPos == 0
    {
      tokens := [];
      readPos := 0;
    }

    method WriteByteArray(a: Bytes)
      modifies this
      ensures tokens == old(tokens) + [ByteArrayToken(a)] && readPos == old(readPos)
    {
      tokens := tokens + [ByteArrayToken(a)];
    }

    method WriteString(s: Text)
      modifies this
      ensures tokens == old(tokens) + [StringToken(s)] && readPos == old(readPos)
    {
      tokens := tokens + [StringToken(s)];
    }

    method WriteInt(x: int32)
      modifies this
      ensures tokens == old(tokens) + [IntToken(x)] && readPos == old(readPos)
    {
      tokens := tokens + [IntToken(x)];
    }

    method SetDataPosition(pos: nat)
      requires pos <= |tokens|
      modifies this
      ensures Valid() && tokens == old(tokens) && readPos == pos
    {
      readPos := pos;
    }

    /**
     * Reads a nullable byte array; `None` when the next token is missing or
     * is not a byte array, and then the position does not move.
     */
    method CreateByteArray() returns (r: Option<Bytes>)
      requires Valid()
      modifies this
      ensures Valid() && tokens == old(tokens)
      ensures old(readPos) < |tokens| && tokens[old(readPos)].ByteArrayToken? ==>
        r == Some(tokens[old(readPos)].bytes) && readPos == old(readPos) + 1
      ensures !(old(readPos) < |tokens| && tokens[old(readPos)].ByteArrayToken?) ==>
        r == None && readPos == old(readPos)
    {
      if readPos < |tokens| && tokens[readPos].ByteArrayToken? {
        r := Some(tokens[readPos].bytes);
        readPos := readPos + 1;
      } else {
        r := None;
      }
    }

    /** Reads a nullable string, as `CreateByteArray` does a byte array. */
    method ReadString() returns (r: Option<Text>)
      requires Valid()
      modifies this
      ensures Valid() && tokens == old(tokens)
      ensures old(readPos) < |tokens| && tokens[old(readPos)].StringToken? ==>
        r == Some(tokens[old(readPos)].text) && readPos == old(readPos) + 1
      ensures !(old(readPos) < |tokens| && tokens[old(readPos)].StringToken?) ==>
        r == None && readPos == old(readPos)
    {
      if readPos < |tokens| && tokens[readPos].StringToken? {
        r := Some(tokens[readPos].text);
        readPos := readPos + 1;
      } else {
        r := None;
      }
    }

    /** Reads an int, as `CreateByteArray` does a byte array. */
    method ReadInt() returns (r: Option<int32>)
      requires Valid()
      modifies this
      ensures Valid() && tokens == old(tokens)
      ensures old(readPos) < |tokens| && tokens[old(readPos)].IntToken? ==>
        r == Some(tokens[old(readPos)].number) && readPos == old(readPos) + 1
      ensures !(old(readPos) < |tokens| && tokens[old(readPos)].IntToken?) ==>
        r == None && readPos == old(readPos)
    {
      if readPos < |tokens| && tokens[readPos].IntToken? {
        r := Some(tokens[readPos].number);
        readPos := readPos + 1;
      } else {
        r := None;
      }
    }
  }

  /** The tokens `writeToParcel` appends for `c`, in order. */
  function Encoding(c: Config): (ts: seq<Token>)
  {
    [ByteArrayToken(c.pmk), StringToken(c.passphrase), ByteArrayToken(c.pmkId), IntToken(c.cipherSuite)]
  }

  /**
   * The config the parcel constructor reads from the front of `ts`, if the
   * first four tokens have the kinds it reads.
   */
  function Decode(ts: seq<Token>): (r: Option<Config>)
  {
    if |ts| >= 4 && ts[0].ByteArrayToken? && ts[1].StringToken?
       && ts[2].ByteArrayToken? && ts[3].IntToken?
    then Some(Config(ts[3].number, ts[0].bytes, ts[2].bytes, ts[1].text))
    else None
  }

  /**
   * Round trip: reading back what was written gives a config equal to the
   * original (null and empty kept apart), whatever follows in the parcel.
   */
  lemma DecodeEncoding(c: Config, rest: seq<Token>)
    ensures Decode(Encoding(c) + rest).Some?
    ensures Equals(Decode(Encoding(c) + rest).value, c)
  {
  }

  /** Conversely, a successful read consumed exactly the encoding of its result. */
  lemma DecodeOnlyEncodings(ts: seq<Token>)
    requires Decode(ts).Some?
    ensures |ts| >= 4 && ts[..4] == Encoding(Decode(ts).value)
  {
  }

  /** `writeToParcel`: appends the four fields in the fixed order. */
  method WriteToParcel(c: Config, dest: Parcel)
    modifies dest
    ensures dest.tokens == old(dest.tokens) + Encoding(c)
    ensures dest.readPos == old(dest.readPos)
  {
    dest.WriteByteArray(c.pmk);
    dest.WriteString(c.passphrase);
    dest.WriteByteArray(c.pmkId);
    dest.WriteInt(c.cipherSuite);
  }

  /**
   * The parcel constructor: reads the four fields in the same order. When the
   * read succeeds the position has moved past exactly four tokens.
   */
  method ReadFromParcel(src: Parcel) returns (r: Option<Config>)
    requires src.Valid()
    modifies src
    ensures src.Valid() && src.tokens == old(src.tokens)
    ensures r == Decode(old(src.tokens)[old(src.readPos)..])
    ensures r.Some? ==> src.readPos == old(src.readPos) + 4
  {
    var pmk := src.CreateByteArray();
    var passphrase := src.ReadString();
    var pmkId := src.CreateByteArray();
    var cipherSuite := src.ReadInt();
    if pmk.Some? && passphrase.Some? && pmkId.Some? && cipherSuite.Some? {
      r := Some(Config(cipherSuite.value, pmk.value, pmkId.value, passphrase.value));
    } else {
      r := None;
    }
  }

  /**
   * Transport end to end: write a config to a new parcel, rewind it, read it
   * back; the result equals the original.
   */
  method RoundTrip(c: Config) returns (d: Option<Config>)
    ensures d.Some? && Equals(d.value, c)
  {
    var p := new Parcel();
    WriteToParcel(c, p);
    p.SetDataPosition(0);
    d := ReadFromParcel(p);
    DecodeEncoding(c, []);
    assert p.tokens[0..] == Encoding(c) + [];
  }
}
