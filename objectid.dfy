/**
 * Document identifiers of the store: a twelve-byte ObjectId and its text form,
 * 24 hexadecimal digits, two per byte, high nibble first.
 *
 * The handlers build an ObjectId from the caller's task_id text and hand the
 * store's ids back as text. Parsing accepts upper- and lower-case digits alike,
 * and formatting always writes lower case, so several texts name one document.
 */
module ObjectIds {

  datatype Option<+T> = None | Some(value: T)

  type byte = x: int | 0 <= x < 256

  /** A document identifier: twelve bytes. */
  type ObjectId = b: seq<byte> | |b| == 12 witness [0, 0, 0, 0, 0, 0, 0, 0, 0, 0, 0, 0]

  predicate IsHexDigit(c: char) {
    '0' <= c <= '9' || 'a' <= c <= 'f' || 'A' <= c <= 'F'
  }

  predicate IsLowerHexDigit(c: char) {
    '0' <= c <= '9' || 'a' <= c <= 'f'
  }

  /** The texts an ObjectId can be built from: exactly 24 hexadecimal digits. */
  predicate IsObjectIdString(s: string) {
    |s| == 24 && forall i :: 0 <= i < |s| ==> IsHexDigit(s[i])
  }

  function ToLower(c: char): (d: char)
    ensures IsHexDigit(c) ==> IsLowerHexDigit(d)
    ensures !('A' <= c <= 'Z') ==> d == c
  {
    if 'A' <= c <= 'Z' then (c as int - 'A' as int + 'a' as int) as char else c
  }

  function LowerCase(s: string): (r: string)
    ensures |r| == |s|
    ensures forall i :: 0 <= i < |s| ==> r[i] == ToLower(s[i])
  {
    seq(|s|, i requires 0 <= i < |s| => ToLower(s[i]))
  }

  /** The value of one hexadecimal digit, either case. */
  function DigitValue(c: char): (v: nat)
    requires IsHexDigit(c)
    ensures v < 16
  {
    if '0' <= c <= '9' then c as int - '0' as int
    else if 'a' <= c <= 'f' then c as int - 'a' as int + 10
    else c as int - 'A' as int + 10
  }

  /** The lower-case digit for a nibble; DigitValue reads it back. */
  function Digit(v: nat): (c: char)
    requires v < 16
    ensures IsLowerHexDigit(c) && DigitValue(c) == v
  {
    if v < 10 then ('0' as int + v) as char else ('a' as int + v - 10) as char
  }

  lemma DigitOfValue(c: char)
    requires IsHexDigit(c)
    ensures Digit(DigitValue(c)) == ToLower(c)
  {
  }

  /** Decodes a text of hexadecimal digit pairs into bytes. */
  function DecodePairs(s: string): (b: seq<byte>)
    requires |s| % 2 == 0
    requires forall i :: 0 <= i < |s| ==> IsHexDigit(s[i])
    ensures |b| == |s| / 2
    ensures forall k :: 0 <= k < |b| ==> b[k] == 16 * DigitValue(s[2 * k]) + DigitValue(s[2 * k + 1])
    decreases |s|
  {
    if s == [] then []
    else [16 * DigitValue(s[0]) + DigitValue(s[1])] + DecodePairs(s[2..])
  }

  /** Encodes bytes as lower-case hexadecimal digit pairs. */
  function EncodeBytes(b: seq<byte>): (s: string)
    ensures |s| == 2 * |b|
    ensures forall i :: 0 <= i < |s| ==> IsLowerHexDigit(s[i])
    ensures forall k :: 0 <= k < |b| ==> s[2 * k] == Digit(b[k] / 16) && s[2 * k + 1] == Digit(b[k] % 16)
  {
    if b == [] then []
    else [Digit(b[0] / 16), Digit(b[0] % 16)] + EncodeBytes(b[1..])
  }

  /** Builds an ObjectId from text; the text is rejected unless it is 24 hexadecimal digits. */
  function Parse(s: string): (r: Option<ObjectId>)
    ensures r.Some? <==> IsObjectIdString(s)
  {
    if IsObjectIdString(s) then Some(DecodePairs(s)) else None
  }

  /** The text form of an ObjectId: 24 lower-case hexadecimal digits. */
  function Format(id: ObjectId): (s: string)
    ensures IsObjectIdString(s)
    ensures forall i :: 0 <= i < |s| ==> IsLowerHexDigit(s[i])
  {
    EncodeBytes(id)
  }

  /** Formatting an ObjectId and parsing the text gives the same ObjectId back. */
  lemma ParseFormat(id: ObjectId)
    ensures Parse(Format(id)) == Some(id)
  {
    var s := Format(id);
    var b := DecodePairs(s);
    forall k | 0 <= k < 12
      ensures b[k] == id[k]
    {
      assert s[2 * k] == Digit(id[k] / 16) && s[2 * k + 1] == Digit(id[k] % 16);
      assert b[k] == 16 * (id[k] / 16) + id[k] % 16;
    }
    assert b == id;
  }

  /** Parsing a valid text and formatting the ObjectId gives the text in lower case. */
  lemma FormatParse(s: string)
    requires IsObjectIdString(s)
    ensures Format(Parse(s).value) == LowerCase(s)
  {
    var b := DecodePairs(s);
    var t := EncodeBytes(b);
    forall i | 0 <= i < 24
      ensures t[i] == ToLower(s[i])
    {
      var k := i / 2;
      var hi, lo := DigitValue(s[2 * k]), DigitValue(s[2 * k + 1]);
      assert b[k] == 16 * hi + lo;
      assert b[k] / 16 == hi && b[k] % 16 == lo;
      DigitOfValue(s[2 * k]);
      DigitOfValue(s[2 * k + 1]);
      assert i == 2 * k || i == 2 * k + 1;
    }
    assert t == LowerCase(s);
  }

  /** A text names the ObjectId exactly when it is that ObjectId's text form in some mix of cases. */
  lemma ParseNames(s: string, id: ObjectId)
    ensures Parse(s) == Some(id) <==> IsObjectIdString(s) && LowerCase(s) == Format(id)
  {
    if Parse(s) == Some(id) {
      FormatParse(s);
    }
    if IsObjectIdString(s) && LowerCase(s) == Format(id) {
      FormatParse(s);
      ParseFormat(Parse(s).value);
      ParseFormat(id);
    }
  }
}
