/** The orientation record as the server puts it on the wire: the sample carried
    through the pipe, the text `snprintf` renders from it, and the fixed-size
    frame every `write` sends to the client. */
module Wire {

  /** Bit pattern of an IEEE-754 single-precision `float`. */
  type Float32 = bv32

  /** The C type `int8_t`. */
  newtype Int8 = x: int | -128 <= x < 128

  /** `struct poll_data`: one orientation sample as it travels through the pipe. */
  datatype Sample = Sample(azimuth: Float32, pitch: Float32, roll: Float32, status: Int8)

  /** Capacity of `send_buf` and `last_reading` less their terminating NUL. */
  const READINGS_BUF_SIZE: nat := 100

  /** Bytes handed to every `write` on the client socket. */
  const FRAME_SIZE: nat := READINGS_BUF_SIZE + 1

  /** Longest text `snprintf` leaves in `send_buf`: its size argument is
      `sizeof(send_buf) - 1` = 100, one of which goes to the terminator. */
  const MAX_TEXT: nat := FRAME_SIZE - 1 - 1

  /** Android's `SENSOR_STATUS_ACCURACY_HIGH`, the status every published sample carries. */
  const SENSOR_STATUS_ACCURACY_HIGH: Int8 := 3

  /** The sample each accepted connection starts from: zero angles, status -1. */
  const InitialSample := Sample(0, 0, 0, -1)

  /** Text a `%f` conversion can produce: it never holds a NUL or a '|'. */
  predicate IsFieldText(s: string) {
    '\0' !in s && '|' !in s
  }

  type FieldText = s: string | IsFieldText(s) witness ""

  /** The C library's `%f` rendering of a float, left uninterpreted. */
  type FloatRenderer = Float32 -> FieldText

  predicate IsDigit(c: char) {
    '0' <= c <= '9'
  }

  function DigitChar(d: nat): (c: char)
    requires d < 10
    ensures IsDigit(c)
  {
    (('0' as int) + d) as char
  }

  /** Decimal digits of `n`, most significant first, without leading zeros. */
  function Digits(n: nat): (r: string)
    ensures 1 <= |r|
    ensures forall i :: 0 <= i < |r| ==> IsDigit(r[i])
    ensures n > 0 ==> r[0] != '0'
    decreases n
  {
    if n < 10 then [DigitChar(n)] else Digits(n / 10) + [DigitChar(n % 10)]
  }

  /** The number a string of decimal digits denotes. */
  function DigitsValue(s: string): nat
    decreases |s|
  {
    if s == [] then 0
    else
      var c := s[|s| - 1];
      10 * DigitsValue(s[..|s| - 1]) + (if IsDigit(c) then (c as int) - ('0' as int) else 0)
  }

  lemma {:induction false} DigitsRoundTrip(n: nat)
    ensures DigitsValue(Digits(n)) == n
    decreases n
  {
    if n >= 10 {
      DigitsRoundTrip(n / 10);
      var d := Digits(n / 10) + [DigitChar(n % 10)];
      assert d[..|d| - 1] == Digits(n / 10);
    }
  }

  /** `%d` applied to the (promoted) status. */
  function StatusText(n: Int8): (r: string)
    ensures 1 <= |r| <= 4
    ensures IsFieldText(r)
    ensures r[0] == '-' <==> n < 0
  {
    DigitsBound(if n < 0 then -(n as int) else n as int);
    if n < 0 then "-" + Digits(-(n as int)) else Digits(n as int)
  }

  lemma {:induction false} DigitsBound(n: nat)
    requires n < 1000
    ensures |Digits(n)| <= 3
  {
    if n >= 10 {
      if n >= 100 {
        assert Digits(n / 10) == Digits(n / 100) + [DigitChar((n / 10) % 10)];
      }
    }
  }

  /** How a client reads the status field back. */
  function ParseStatus(s: string): int {
    if |s| > 0 && s[0] == '-' then -(DigitsValue(s[1..]) as int) else DigitsValue(s)
  }

  lemma StatusRoundTrip(n: Int8)
    ensures ParseStatus(StatusText(n)) == n as int
  {
    if n < 0 {
      DigitsRoundTrip(-(n as int));
      assert StatusText(n)[1..] == Digits(-(n as int));
    } else {
      DigitsRoundTrip(n as int);
    }
  }

  /** The conversions of `"%f|%f|%f|%d"`, in order. */
  function Conversions(fmt: FloatRenderer, s: Sample): (r: seq<string>)
    ensures |r| == 4
    ensures forall i :: 0 <= i < 4 ==> IsFieldText(r[i])
  {
    [fmt(s.azimuth), fmt(s.pitch), fmt(s.roll), StatusText(s.status)]
  }

  /** Texts joined with a '|' between each two. */
  function Join(fields: seq<string>): (r: string)
    requires |fields| >= 1
    ensures (forall i :: 0 <= i < |fields| ==> '\0' !in fields[i]) ==> '\0' !in r
    ensures |r| >= |fields| - 1
    decreases |fields|
  {
    if |fields| == 1 then fields[0] else fields[0] + "|" + Join(fields[1..])
  }

  /** The full text of `"%f|%f|%f|%d"` before `snprintf` bounds it: it splits
      back at '|' into the four conversions, and holds no NUL. */
  function Render(fmt: FloatRenderer, s: Sample): (r: string)
    ensures Fields(r) == Conversions(fmt, s)
    ensures '\0' !in r
    ensures |r| >= 3
  {
    var c := Conversions(fmt, s);
    FieldsOfJoin(c);
    Join(c)
  }

  /** The text left in `send_buf`: the rendering cut to `MAX_TEXT` characters. */
  function Record(fmt: FloatRenderer, s: Sample): (r: string)
    ensures 0 < |r| <= MAX_TEXT
    ensures '\0' !in r
  {
    var t := Render(fmt, s);
    if |t| <= MAX_TEXT then t else t[..MAX_TEXT]
  }

  /** The record is the rendering, cut to 99 characters when it is longer. */
  lemma RecordIsBoundedRendering(fmt: FloatRenderer, s: Sample)
    ensures Record(fmt, s) <= Render(fmt, s)
    ensures |Record(fmt, s)| == if |Render(fmt, s)| <= MAX_TEXT then |Render(fmt, s)| else MAX_TEXT
  {
  }

  /** Split a record at every '|', as a client does. */
  function Fields(s: string): (r: seq<string>)
    ensures |r| >= 1
    decreases |s|
  {
    if s == [] then [""]
    else
      var rest := Fields(s[1..]);
      if s[0] == '|' then [""] + rest else [[s[0]] + rest[0]] + rest[1..]
  }

  lemma {:induction false} FieldsOfPlain(a: string)
    requires '|' !in a
    ensures Fields(a) == [a]
    decreases |a|
  {
    if a != [] {
      FieldsOfPlain(a[1..]);
      assert [a[0]] + a[1..] == a;
    }
  }

  lemma {:induction false} FieldsOfJoinOne(a: string, rest: string)
    requires '|' !in a
    ensures Fields(a + "|" + rest) == [a] + Fields(rest)
    decreases |a|
  {
    if a == [] {
      assert a + "|" + rest == "|" + rest;
      assert ("|" + rest)[1..] == rest;
    } else {
      FieldsOfJoinOne(a[1..], rest);
      assert (a + "|" + rest)[1..] == a[1..] + "|" + rest;
      assert [a[0]] + a[1..] == a;
    }
  }

  /** Splitting undoes joining, as long as no field holds a '|'. */
  lemma {:induction false} FieldsOfJoin(fields: seq<string>)
    requires |fields| >= 1
    requires forall i :: 0 <= i < |fields| ==> '|' !in fields[i]
    ensures Fields(Join(fields)) == fields
    decreases |fields|
  {
    if |fields| == 1 {
      FieldsOfPlain(fields[0]);
    } else {
      FieldsOfJoin(fields[1..]);
      FieldsOfJoinOne(fields[0], Join(fields[1..]));
      assert [fields[0]] + fields[1..] == fields;
    }
  }

  /** A rendering splits back into the four conversions it was made of (a
      corollary of `Render`'s own contract), and the last of them gives back
      the status. */
  lemma RenderRoundTrip(fmt: FloatRenderer, s: Sample)
    ensures Fields(Render(fmt, s)) == [fmt(s.azimuth), fmt(s.pitch), fmt(s.roll), StatusText(s.status)]
    ensures ParseStatus(Fields(Render(fmt, s))[3]) == s.status as int
  {
    FieldsOfJoin(Conversions(fmt, s));
    StatusRoundTrip(s.status);
  }

  /** A client reading what one `write` sends, as a C string split at '|',
      gets back the four conversions whenever the rendering fit in `send_buf`. */
  lemma WireRoundTrip(fmt: FloatRenderer, s: Sample)
    requires |Render(fmt, s)| <= MAX_TEXT
    ensures Fields(CString(Frame(Record(fmt, s)))) == Conversions(fmt, s)
  {
    RecordIsBoundedRendering(fmt, s);
    FrameRoundTrip(Record(fmt, s));
  }

  function Nuls(n: nat): (r: seq<char>)
    ensures |r| == n
    ensures forall i :: 0 <= i < n ==> r[i] == '\0'
  {
    seq(n, _ => '\0')
  }

  /** The bytes one `write` sends: the text, then the zeroes `send_buf` was
      initialised with, `FRAME_SIZE` bytes in all. */
  function Frame(text: string): (r: seq<char>)
    requires |text| <= READINGS_BUF_SIZE
    ensures |r| == FRAME_SIZE
    ensures r[..|text|] == text
    ensures forall i :: |text| <= i < |r| ==> r[i] == '\0'
  {
    text + Nuls(FRAME_SIZE - |text|)
  }

  /** The C string held in a buffer: everything before the first NUL. */
  function CString(buf: seq<char>): (r: string)
    ensures '\0' !in r
    ensures r <= buf
    decreases |buf|
  {
    if buf == [] || buf[0] == '\0' then [] else [buf[0]] + CString(buf[1..])
  }

  lemma {:induction false} CStringOfPadded(t: string, z: seq<char>)
    requires '\0' !in t
    requires z == [] || z[0] == '\0'
    ensures CString(t + z) == t
    decreases |t|
  {
    if t == [] {
      assert t + z == z;
    } else {
      CStringOfPadded(t[1..], z);
      assert (t + z)[1..] == t[1..] + z;
    }
  }

  /** A client reading a frame as a C string gets back exactly the record. */
  lemma FrameRoundTrip(text: string)
    requires |text| <= READINGS_BUF_SIZE
    requires '\0' !in text
    ensures CString(Frame(text)) == text
  {
    CStringOfPadded(text, Nuls(FRAME_SIZE - |text|));
  }
}
