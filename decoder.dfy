/** The decoder of the counter's fixed-format reply: a tag character followed by
    the value field. */
module Decoder {

  import opened Wrappers

  /** `Measurement`: the reply as received, the value read from it, the overflow
      flag and the unit name. */
  datatype Measurement = Measurement(raw: string, value: real, overflow: bool, unit: string)

  /** The record `Measurement()` builds before the decoder fills it in. */
  const DEFAULT_MEASUREMENT := Measurement("", 0.0, false, "NONE")

  /** `rawdata[1:20]`: the characters after the tag, at most 19 of them, with
      Python's clamping of slice bounds to the length of the string. */
  function ValueField(rawdata: string): (field: string)
    ensures |field| == if |rawdata| <= 1 then 0 else if |rawdata| <= 20 then |rawdata| - 1 else 19
    ensures forall k :: 0 <= k < |field| ==> field[k] == rawdata[k + 1]
  {
    if |rawdata| <= 1 then "" else rawdata[1..if |rawdata| <= 20 then |rawdata| else 20]
  }

  /** `_decode(rawdata)`, with Python's `float()` as the partial function `parseFloat`.
      The value is converted before the tag is looked at, so a field `float()`
      rejects fails whatever the tag; only then does an empty reply fail, on
      `rawdata[0]`. */
  function Decode(rawdata: string, parseFloat: string -> Option<real>): (r: Result<Measurement, Error>)
    ensures r.Success? <==> parseFloat(ValueField(rawdata)).Some? && |rawdata| > 0
    ensures parseFloat(ValueField(rawdata)).None? ==> r.Failure? && r.error.ValueError?
    ensures |rawdata| == 0 && parseFloat(ValueField(rawdata)).Some? ==> r == Failure(IndexError)
    ensures r.Success? ==> r.value.raw == rawdata
    ensures r.Success? ==> parseFloat(ValueField(rawdata)) == Some(r.value.value)
    ensures r.Success? ==> (r.value.overflow <==> rawdata[0] == 'O')
    ensures r.Success? ==> (r.value.unit == "HZ" <==> rawdata[0] == 'F')
    ensures r.Success? ==> (r.value.unit == "SEC" <==> rawdata[0] == 'T')
    ensures r.Success? ==> (r.value.unit == "ERROR" <==> rawdata[0] == 'X')
    ensures r.Success? ==> (r.value.unit == "NONE" <==> rawdata[0] !in "FTX")
  {
    match parseFloat(ValueField(rawdata))
    case None => Failure(ValueError("could not convert string to float"))
    case Some(v) =>
      if |rawdata| == 0 then Failure(IndexError)
      else
        var m := DEFAULT_MEASUREMENT.(raw := rawdata, value := v);
        var tag := rawdata[0];
        if tag == 'O' then Success(m.(overflow := true))
        else if tag == 'F' then Success(m.(unit := "HZ"))
        else if tag == 'T' then Success(m.(unit := "SEC"))
        else if tag == 'X' then Success(m.(unit := "ERROR"))
        else if tag == ' ' then Success(m.(unit := "NONE"))
        else Success(m)
  }

  /** A reply whose tag is none of `O`, `F`, `T`, `X` keeps every default of
      `Measurement()` except the raw text and the value. */
  lemma UnrecognisedTagKeepsDefaults(rawdata: string, parseFloat: string -> Option<real>)
    requires |rawdata| > 0 && rawdata[0] !in "OFTX"
    requires parseFloat(ValueField(rawdata)).Some?
    ensures Decode(rawdata, parseFloat)
      == Success(DEFAULT_MEASUREMENT.(raw := rawdata, value := parseFloat(ValueField(rawdata)).value))
  {
  }

  /** The reply the counter sends for a tag and a value field. */
  function Reply(tag: char, field: string): (rawdata: string)
    ensures |rawdata| == |field| + 1 && rawdata[0] == tag
  {
    [tag] + field
  }

  /** The tag a decoded record was read from (a space when no tag was recognised). */
  function Tag(m: Measurement): char
  {
    if m.overflow then 'O'
    else if m.unit == "HZ" then 'F'
    else if m.unit == "SEC" then 'T'
    else if m.unit == "ERROR" then 'X'
    else ' '
  }

  /** Decoding a reply built from a tag and a value field of at most 19 characters
      gives back the whole reply, the field's value and the tag (a space for a tag
      the decoder does not recognise). */
  lemma ReplyRoundTrip(tag: char, field: string, parseFloat: string -> Option<real>)
    requires |field| <= 19
    ensures Decode(Reply(tag, field), parseFloat).Success? <==> parseFloat(field).Some?
    ensures parseFloat(field).Some? ==>
      var m := Decode(Reply(tag, field), parseFloat).value;
      m.raw == Reply(tag, field) && Some(m.value) == parseFloat(field)
      && Tag(m) == (if tag in "OFTX" then tag else ' ')
  {
    assert ValueField(Reply(tag, field)) == field;
  }

  /** Characters after the 20th are never looked at. */
  lemma TrailingCharactersIgnored(rawdata: string, extra: string, parseFloat: string -> Option<real>)
    requires |rawdata| >= 20
    ensures Decode(rawdata + extra, parseFloat).Success? == Decode(rawdata, parseFloat).Success?
    ensures Decode(rawdata + extra, parseFloat).Success? ==>
      Decode(rawdata + extra, parseFloat).value == Decode(rawdata, parseFloat).value.(raw := rawdata + extra)
  {
    assert ValueField(rawdata + extra) == ValueField(rawdata);
  }

  /** A frequency reading: `F` and a field that converts to 1000.0. */
  lemma FrequencyExample(parseFloat: string -> Option<real>)
    requires parseFloat("00001000.000000000") == Some(1000.0)
    ensures Decode("F00001000.000000000", parseFloat)
      == Success(Measurement("F00001000.000000000", 1000.0, false, "HZ"))
  {
    assert ValueField("F00001000.000000000") == "00001000.000000000";
  }

  /** An overflow reading: the overflow flag is set and the unit stays `NONE`. */
  lemma OverflowExample(parseFloat: string -> Option<real>)
    requires parseFloat("00000000.000000000") == Some(0.0)
    ensures Decode("O00000000.000000000", parseFloat)
      == Success(Measurement("O00000000.000000000", 0.0, true, "NONE"))
  {
    assert ValueField("O00000000.000000000") == "00000000.000000000";
  }
}
