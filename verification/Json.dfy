/** The JSON printer (get_json in ts_data.c), which writes into a buffer in place:
    what it leaves there, how far it writes, and when that is a JSON object. */
module Json {
  import opened CInts
  import opened Types

  const DATA_ERR_SUCCESS := 0
  const DATA_ERR_JSON := 3
  const DATA_ERR_BUF := 5
  const DATA_MAX_LINE_LEN := 100
  const NUL: char := 0 as char

  /** The text %f gives a double; its digits are not modelled. */
  type DoubleFormat = real -> string

  // ---------- numbers ----------

  function DigitChar(d: int): char
    requires 0 <= d < 10
  {
    ('0' as int + d) as char
  }

  function Digits(n: nat): (s: string)
    ensures s != []
  {
    if n < 10 then [DigitChar(n)] else Digits(n / 10) + [DigitChar(n % 10)]
  }

  /** %d and %ld */
  function Decimal(n: int): string {
    if n < 0 then "-" + Digits(-n) else Digits(n)
  }

  // ---------- what the printer writes ----------

  function Quoted(s: string): string {
    "\"" + s + "\""
  }

  function AliasText(f: Slot): string {
    if f.alias.Some? then f.alias.value else "(null)"
  }

  function ValueText(fmt: DoubleFormat, f: Slot): string {
    match f.slotType
    case TsBool => if f.boolData then "1" else "0"
    case TsInt => Decimal(f.intData)
    case TsLint => Decimal(f.longData)
    case TsDouble => Quoted(fmt(f.doubleData))
    case TsChar => Quoted(f.charData)
    case _ => ""
  }

  function Member(fmt: DoubleFormat, f: Slot): string {
    Quoted(AliasText(f)) + ":" + ValueText(fmt, f)
  }

  function Members(fmt: DoubleFormat, data: seq<Slot>): (ms: seq<string>)
    ensures |ms| == |data|
    ensures forall i :: 0 <= i < |data| ==> ms[i] == Member(fmt, data[i])
  {
    seq(|data|, i requires 0 <= i < |data| => Member(fmt, data[i]))
  }

  /** The buffer after n members: the brace, and each member with its comma. */
  function Body(ms: seq<string>, n: nat): (s: string)
    requires n <= |ms|
    ensures |s| >= 1
  {
    if n == 0 then "{" else Body(ms, n - 1) + (ms[n - 1] + ",")
  }

  datatype Ending = Ending(code: int, printed: nat)

  /** Where the loop stops when it has reached field i, and with which result. */
  function Stop(bufLen: int, data: seq<Slot>, ms: seq<string>, i: nat): (e: Ending)
    requires i <= |data| == |ms|
    ensures i <= e.printed <= |data|
    decreases |data| - i
  {
    if i == |data| then Ending(DATA_ERR_SUCCESS, i)
    else if !data[i].slotType.Printable() then Ending(DATA_ERR_JSON, i)
    else if |Body(ms, i + 1)| >= bufLen - DATA_MAX_LINE_LEN && i + 1 < |data| then Ending(DATA_ERR_BUF, i + 1)
    else Stop(bufLen, data, ms, i + 1)
  }

  /** The text left in the buffer: on success the last comma has become the closing brace. */
  function Text(bufLen: int, data: seq<Slot>, ms: seq<string>): string
    requires |ms| == |data|
  {
    var e := Stop(bufLen, data, ms, 0);
    var body := Body(ms, e.printed);
    if e.code == DATA_ERR_SUCCESS then Closed(body) else body
  }

  function Closed(body: string): (s: string)
    requires |body| >= 1
    ensures |s| == |body|
  {
    body[..|body| - 1] + "}"
  }

  /** The number of cells written, terminator included. */
  function Extent(bufLen: int, data: seq<Slot>, ms: seq<string>): nat
    requires |ms| == |data|
  {
    |Body(ms, Stop(bufLen, data, ms, 0).printed)| + 1
  }

  /** The buffer holds a text and its terminator, and nothing from extent on has been touched. */
  ghost predicate Holds(cells: string, text: string, extent: nat, beyond: string) {
    && |text| < extent <= |cells|
    && cells[..|text| + 1] == text + [NUL]
    && cells[extent..] == beyond
  }

  /** sprintf of a finished text: the characters, then NUL; nothing else is touched. */
  method Write(buf: array<char>, pos: nat, text: string, ghost extent: nat) returns (written: nat)
    requires pos + |text| < extent <= buf.Length
    modifies buf
    ensures written == |text|
    ensures Holds(buf[..], old(buf[..pos]) + text, extent, old(buf[extent..]))
  {
    forall k | 0 <= k < |text| {
      buf[pos + k] := text[k];
    }
    buf[pos + |text|] := NUL;
    return |text|;
  }

  /** length += sprintf(buf + length, "{") */
  method Start(buf: array<char>, ghost ms: seq<string>, ghost extent: nat) returns (length: nat)
    requires 2 <= extent <= buf.Length
    modifies buf
    ensures length == |Body(ms, 0)| && Holds(buf[..], Body(ms, 0), extent, old(buf[extent..]))
  {
    length := Write(buf, 0, "{", extent);
    assert old(buf[..0]) + "{" == "{";
  }

  /** length += sprintf(buf + length, ...) */
  method PrintMember(buf: array<char>, length: nat, ms: seq<string>, i: nat, ghost extent: nat, ghost beyond: string)
    returns (length': nat)
    requires i < |ms| && length == |Body(ms, i)| && |Body(ms, i + 1)| < extent
    requires Holds(buf[..], Body(ms, i), extent, beyond)
    modifies buf
    ensures length' == |Body(ms, i + 1)| && Holds(buf[..], Body(ms, i + 1), extent, beyond)
  {
    assert buf[..length] == buf[..][..length + 1][..length] == Body(ms, i);
    var written := Write(buf, length, ms[i] + ",", extent);
    return length + written;
  }

  /** sprintf(buf + length - 1, "}"): the last character gives way to the brace. */
  method Finish(buf: array<char>, length: nat, ghost body: string, ghost extent: nat, ghost beyond: string)
    requires 1 <= length == |body| && Holds(buf[..], body, extent, beyond)
    modifies buf
    ensures Holds(buf[..], Closed(body), extent, beyond)
  {
    assert buf[..length - 1] == buf[..][..length + 1][..length - 1] == body[..length - 1];
    var written := Write(buf, length - 1, "}", extent);
  }

  /** The loop of get_json, with the members already formatted. */
  method PrintMembers(buf: array<char>, bufLen: int, data: seq<Slot>, ms: seq<string>) returns (code: int)
    requires |ms| == |data| && Extent(bufLen, data, ms) <= buf.Length
    modifies buf
    ensures code == Stop(bufLen, data, ms, 0).code
    ensures Holds(buf[..], Text(bufLen, data, ms), Extent(bufLen, data, ms), old(buf[Extent(bufLen, data, ms)..]))
  {
    ghost var end, extent := Stop(bufLen, data, ms, 0), Extent(bufLen, data, ms);
    ghost var beyond := buf[extent..];
    BodyGrows(ms, 0, end.printed);
    var length := Start(buf, ms, extent);
    for i := 0 to |data|
      invariant Stop(bufLen, data, ms, i) == end
      invariant length == |Body(ms, i)|
      invariant Holds(buf[..], Body(ms, i), extent, beyond)
    {
      if !data[i].slotType.Printable() {
        return DATA_ERR_JSON;
      }
      BodyGrows(ms, i + 1, end.printed);
      length := PrintMember(buf, length, ms, i, extent, beyond);
      if length >= bufLen - DATA_MAX_LINE_LEN && i + 1 < |data| {
        return DATA_ERR_BUF;
      }
    }
    assert Body(ms, |data|) == Body(ms, end.printed);
    Finish(buf, length, Body(ms, |data|), extent, beyond);
    return DATA_ERR_SUCCESS;
  }

  /** get_json. The buffer must be large enough for what is written; bufLen is the length the caller claims.
      What is left is the text; nothing past its extent is touched. */
  method GetJson(fmt: DoubleFormat, buf: array<char>, bufLen: int, data: seq<Slot>) returns (code: int)
    requires Extent(bufLen, data, Members(fmt, data)) <= buf.Length
    modifies buf
    ensures var ms := Members(fmt, data);
            && code == Stop(bufLen, data, ms, 0).code
            && Holds(buf[..], Text(bufLen, data, ms), Extent(bufLen, data, ms), old(buf[Extent(bufLen, data, ms)..]))
  {
    code := PrintMembers(buf, bufLen, data, Members(fmt, data));
  }

  lemma {:induction false} BodyGrows(ms: seq<string>, i: nat, n: nat)
    requires i <= n <= |ms|
    ensures |Body(ms, i)| <= |Body(ms, n)|
    decreases n
  {
    if i < n {
      BodyGrows(ms, i, n - 1);
    }
  }

  // ---------- the buffer bound ----------

  /** Every member, with its comma, fits a line. */
  predicate LinesFit(ms: seq<string>) {
    forall i :: 0 <= i < |ms| ==> |ms[i]| + 1 <= DATA_MAX_LINE_LEN
  }

  lemma {:induction false} StopInside(bufLen: int, data: seq<Slot>, ms: seq<string>, i: nat)
    requires LinesFit(ms) && i <= |data| == |ms|
    requires |Body(ms, i)| < bufLen
    requires i < |data| ==> |Body(ms, i)| < bufLen - DATA_MAX_LINE_LEN
    ensures |Body(ms, Stop(bufLen, data, ms, i).printed)| < bufLen
    decreases |data| - i
  {
    if i < |data| && data[i].slotType.Printable() {
      if !(|Body(ms, i + 1)| >= bufLen - DATA_MAX_LINE_LEN && i + 1 < |data|) {
        StopInside(bufLen, data, ms, i + 1);
      }
    }
  }

  /** With lines that fit and a buffer of at least 102 cells nothing is written at or past its length. */
  lemma WritesStayInside(bufLen: int, data: seq<Slot>, ms: seq<string>)
    requires |ms| == |data| && bufLen >= 102 && forall i :: 0 <= i < |ms| ==> |ms[i]| + 1 <= 100
    ensures Extent(bufLen, data, ms) <= bufLen
  {
    StopInside(bufLen, data, ms, 0);
  }

  /** Line i runs over the end: it is printed, since there seemed to be room before it, but it is too long. */
  predicate Overruns(bufLen: int, ms: seq<string>, i: nat)
    requires i < |ms|
  {
    |Body(ms, i + 1)| >= bufLen && (i == 0 || |Body(ms, i)| < bufLen - DATA_MAX_LINE_LEN)
  }

  /** No line from i on runs over the end. */
  predicate Within(bufLen: int, ms: seq<string>, i: nat)
    requires i <= |ms|
    decreases |ms| - i
  {
    i == |ms| || (!Overruns(bufLen, ms, i) && Within(bufLen, ms, i + 1))
  }

  lemma {:induction false} WithinMeans(bufLen: int, ms: seq<string>, i: nat)
    requires i <= |ms|
    ensures Within(bufLen, ms, i) <==> forall k :: i <= k < |ms| ==> !Overruns(bufLen, ms, k)
    decreases |ms| - i
  {
    if i < |ms| {
      WithinMeans(bufLen, ms, i + 1);
    }
  }

  /** Past a line that leaves no room nothing is printed any more. */
  lemma {:induction false} NothingAfterStop(bufLen: int, ms: seq<string>, i: nat)
    requires 0 < i <= |ms| && |Body(ms, i)| >= bufLen - DATA_MAX_LINE_LEN
    ensures Within(bufLen, ms, i)
    decreases |ms| - i
  {
    if i < |ms| {
      NothingAfterStop(bufLen, ms, i + 1);
    }
  }

  /** Line i leaves no room: the printer stops behind it, and only it can have run over the end. */
  lemma StopsHere(bufLen: int, data: seq<Slot>, ms: seq<string>, i: nat)
    requires i < |data| == |ms| && data[i].slotType.Printable() && |Body(ms, i + 1)| >= bufLen - DATA_MAX_LINE_LEN
    requires i == 0 || |Body(ms, i)| < bufLen - DATA_MAX_LINE_LEN
    ensures Stop(bufLen, data, ms, i).printed == i + 1
    ensures Within(bufLen, ms, i) <==> |Body(ms, i + 1)| < bufLen
  {
    NothingAfterStop(bufLen, ms, i + 1);
  }

  /** It leaves room: the printer goes on. */
  lemma GoesOn(bufLen: int, data: seq<Slot>, ms: seq<string>, i: nat)
    requires i < |data| == |ms| && data[i].slotType.Printable() && |Body(ms, i + 1)| < bufLen - DATA_MAX_LINE_LEN
    ensures Stop(bufLen, data, ms, i) == Stop(bufLen, data, ms, i + 1)
    ensures Within(bufLen, ms, i) <==> Within(bufLen, ms, i + 1)
  {
  }

  lemma {:induction false} StopOverruns(bufLen: int, data: seq<Slot>, ms: seq<string>, i: nat)
    requires i <= |data| == |ms| && forall k :: i <= k < |data| ==> data[k].slotType.Printable()
    requires |Body(ms, i)| < bufLen && (i == 0 || i == |data| || |Body(ms, i)| < bufLen - DATA_MAX_LINE_LEN)
    ensures |Body(ms, Stop(bufLen, data, ms, i).printed)| < bufLen <==> Within(bufLen, ms, i)
    decreases |data| - i
  {
    var printed := Stop(bufLen, data, ms, i).printed;
    if i == |data| {
      assert printed == i;
    } else if |Body(ms, i + 1)| >= bufLen - DATA_MAX_LINE_LEN {
      StopsHere(bufLen, data, ms, i);
      assert printed == i + 1;
    } else {
      GoesOn(bufLen, data, ms, i);
      StopOverruns(bufLen, data, ms, i + 1);
      assert printed == Stop(bufLen, data, ms, i + 1).printed;
    }
  }

  /** A field of an unknown type stops the printer with its own code, unless room has run out before. */
  lemma {:induction false} UnknownTypeStops(bufLen: int, data: seq<Slot>, ms: seq<string>, i: nat, j: nat)
    requires i <= j < |data| == |ms| && !data[j].slotType.Printable()
    requires forall k :: i <= k < j ==> data[k].slotType.Printable()
    requires forall k :: i < k <= j ==> |Body(ms, k)| < bufLen - 100
    ensures Stop(bufLen, data, ms, i).code == 3 && Stop(bufLen, data, ms, i).printed == j
    decreases j - i
  {
    if i < j {
      UnknownTypeStops(bufLen, data, ms, i + 1, j);
    }
  }

  /** Exactly when the printer keeps inside the length it was given. */
  lemma WritesStayInsideExactly(bufLen: int, data: seq<Slot>, ms: seq<string>)
    requires |ms| == |data| && bufLen >= 2 && forall k :: 0 <= k < |data| ==> data[k].slotType.Printable()
    ensures Extent(bufLen, data, ms) <= bufLen <==> forall k :: 0 <= k < |ms| ==> !Overruns(bufLen, ms, k)
  {
    StopOverruns(bufLen, data, ms, 0);
    WithinMeans(bufLen, ms, 0);
  }

  function Pow10(k: nat): nat {
    if k == 0 then 1 else 10 * Pow10(k - 1)
  }

  lemma {:induction false} DigitsLength(n: nat, k: nat)
    requires n < Pow10(k) && k >= 1
    ensures |Digits(n)| <= k
  {
    if n >= 10 {
      DigitsLength(n / 10, k - 1);
    }
  }

  lemma PowersOfTen()
    ensures Pow10(10) == 10_000_000_000 && Pow10(19) == 10_000_000_000_000_000_000
  {
    assert Pow10(3) == 1000;
    assert Pow10(6) == 1000 * Pow10(3);
    assert Pow10(9) == 1000 * Pow10(6);
    assert Pow10(12) == 1000 * Pow10(9);
    assert Pow10(15) == 1000 * Pow10(12);
    assert Pow10(18) == 1000 * Pow10(15);
  }

  /** Lengths of the lines whose values have a bounded text. With a name of at most 80 characters a boolean and
      a 32-bit number always fit a line; a 64-bit number does with a name of at most 76. */
  lemma BoundedMembers(fmt: DoubleFormat, f: Slot)
    ensures f.slotType.TsBool? ==> |Member(fmt, f)| + 1 <= |AliasText(f)| + 5
    ensures f.slotType.TsInt? ==> |Member(fmt, f)| + 1 <= |AliasText(f)| + 15
    ensures f.slotType.TsLint? && -TWO31 <= f.longData < TWO32 ==> |Member(fmt, f)| + 1 <= |AliasText(f)| + 15
    ensures f.slotType.TsLint? && -TWO63 <= f.longData < TWO63 ==> |Member(fmt, f)| + 1 <= |AliasText(f)| + 24
    ensures f.slotType.TsChar? ==> |Member(fmt, f)| + 1 == |AliasText(f)| + |f.charData| + 6
    ensures f.slotType.TsDouble? ==> |Member(fmt, f)| + 1 == |AliasText(f)| + |fmt(f.doubleData)| + 6
    ensures |Member(fmt, f)| >= |AliasText(f)| + 3
  {
    PowersOfTen();
    if f.slotType.TsLint? && -TWO63 <= f.longData < TWO63 {
      DigitsLength(if f.longData < 0 then -f.longData else f.longData, 19);
    }
    if f.slotType.TsInt? {
      var n: int := f.intData;
      DigitsLength(if n < 0 then -n else n, 10);
    }
    if f.slotType.TsLint? && -TWO31 <= f.longData < TWO32 {
      DigitsLength(if f.longData < 0 then -f.longData else f.longData, 10);
    }
  }

  // ---------- the text is an object (section 4 of RFC 8259) ----------

  /** A character a JSON string may hold without escaping (section 7). */
  predicate Unescaped(c: char) {
    c >= ' ' && c != '"' && c != '\\'
  }

  predicate Clean(s: string) {
    forall i :: 0 <= i < |s| ==> Unescaped(s[i])
  }

  predicate IsString(s: string) {
    |s| >= 2 && s[0] == '"' && s[|s| - 1] == '"' && Clean(s[1..|s| - 1])
  }

  predicate IsDigit(c: char) {
    '0' <= c <= '9'
  }

  /** An integer without a superfluous leading zero (section 6). */
  predicate IsNumber(s: string) {
    var n := if s != [] && s[0] == '-' then s[1..] else s;
    n != [] && (forall i :: 0 <= i < |n| ==> IsDigit(n[i])) && (n[0] == '0' ==> |n| == 1)
  }

  ghost predicate IsMember(m: string) {
    exists name: string, value: string ::
      m == name + ":" + value && IsString(name) && (IsNumber(value) || IsString(value))
  }

  function Join(ms: seq<string>): string {
    if ms == [] then "" else if |ms| == 1 then ms[0] else Join(ms[..|ms| - 1]) + "," + ms[|ms| - 1]
  }

  /** An object with at least one member and no white space. */
  ghost predicate IsObject(s: string) {
    exists ms: seq<string> :: ms != [] && s == "{" + Join(ms) + "}" && forall i :: 0 <= i < |ms| ==> IsMember(ms[i])
  }

  /** The texts in the fields need no escaping. */
  predicate CleanField(fmt: DoubleFormat, f: Slot) {
    && f.WellFormed() && Clean(f.alias.value)
    && (f.slotType.TsChar? ==> Clean(f.charData))
    && (f.slotType.TsDouble? ==> Clean(fmt(f.doubleData)))
  }

  predicate CleanFields(fmt: DoubleFormat, data: seq<Slot>) {
    forall i :: 0 <= i < |data| ==> CleanField(fmt, data[i])
  }

  lemma {:induction false} DigitsAreNumber(n: nat)
    ensures forall i :: 0 <= i < |Digits(n)| ==> IsDigit(Digits(n)[i])
    ensures Digits(n)[0] == '0' ==> n == 0
  {
    if n >= 10 {
      DigitsAreNumber(n / 10);
    }
  }

  lemma QuotedIsString(s: string)
    requires Clean(s)
    ensures IsString(Quoted(s))
  {
    assert Quoted(s)[1..|Quoted(s)| - 1] == s;
  }

  lemma MemberIsMember(fmt: DoubleFormat, f: Slot)
    requires CleanField(fmt, f)
    ensures IsMember(Member(fmt, f))
  {
    QuotedIsString(f.alias.value);
    var value := ValueText(fmt, f);
    match f.slotType {
      case TsBool =>
        DecimalIsNumber(if f.boolData then 1 else 0);
        assert Decimal(1) == "1" && Decimal(0) == "0";
      case TsInt => DecimalIsNumber(f.intData);
      case TsLint => DecimalIsNumber(f.longData);
      case TsDouble => QuotedIsString(fmt(f.doubleData));
      case TsChar => QuotedIsString(f.charData);
      case _ =>
    }
    assert Member(fmt, f) == Quoted(f.alias.value) + ":" + value;
  }

  lemma DecimalIsNumber(n: int)
    ensures IsNumber(Decimal(n))
  {
    DigitsAreNumber(if n < 0 then -n else n);
    if n < 0 {
      assert Decimal(n)[1..] == Digits(-n);
    } else {
      assert Decimal(n)[0] != '-' by { assert IsDigit(Digits(n)[0]); }
    }
  }

  lemma {:induction false} BodyJoins(ms: seq<string>, n: nat)
    requires 1 <= n <= |ms|
    ensures Body(ms, n) == "{" + Join(ms[..n]) + ","
  {
    var m := ms[n - 1];
    if n > 1 {
      BodyJoins(ms, n - 1);
      assert ms[..n][..n - 1] == ms[..n - 1];
      Regroup("{", Join(ms[..n - 1]), ",", m, ",");
    } else {
      assert Body(ms, 0) == "{";
      assert ms[..1] == [m];
    }
  }

  lemma Regroup(a: string, b: string, c: string, d: string, e: string)
    ensures a + b + c + (d + e) == a + (b + c + d) + e
  {
  }

  lemma {:induction false} StopSucceeds(bufLen: int, data: seq<Slot>, ms: seq<string>, i: nat)
    requires i <= |data| == |ms| && Stop(bufLen, data, ms, i).code == DATA_ERR_SUCCESS
    ensures Stop(bufLen, data, ms, i).printed == |data|
    decreases |data| - i
  {
    if i < |data| {
      StopSucceeds(bufLen, data, ms, i + 1);
    }
  }

  predicate Succeeds(fmt: DoubleFormat, bufLen: int, data: seq<Slot>) {
    Stop(bufLen, data, Members(fmt, data), 0).code == DATA_ERR_SUCCESS
  }

  /** The members from i on, but the last, leave a line's worth of room. */
  predicate RoomFrom(bufLen: int, ms: seq<string>, i: nat) {
    forall k :: i < k < |ms| ==> |Body(ms, k)| < bufLen - DATA_MAX_LINE_LEN
  }

  lemma {:induction false} StopCode(bufLen: int, data: seq<Slot>, ms: seq<string>, i: nat)
    requires i <= |data| == |ms| && forall k :: i <= k < |data| ==> data[k].slotType.Printable()
    ensures Stop(bufLen, data, ms, i).code == if RoomFrom(bufLen, ms, i) then DATA_ERR_SUCCESS else DATA_ERR_BUF
    decreases |data| - i
  {
    if i < |data| {
      StopCode(bufLen, data, ms, i + 1);
      assert RoomFrom(bufLen, ms, i) <==>
             (i + 1 < |ms| ==> |Body(ms, i + 1)| < bufLen - DATA_MAX_LINE_LEN) && RoomFrom(bufLen, ms, i + 1);
    }
  }

  /** All members but the last leave a line's worth of room. */
  predicate Room(bufLen: int, ms: seq<string>) {
    |ms| > 1 ==> |Body(ms, |ms| - 1)| < bufLen - DATA_MAX_LINE_LEN
  }

  /** With printable fields the printer succeeds exactly when there is room; otherwise it reports a short buffer. */
  lemma SucceedsExactly(bufLen: int, data: seq<Slot>, ms: seq<string>)
    requires |data| == |ms| && forall k :: 0 <= k < |data| ==> data[k].slotType.Printable()
    ensures Stop(bufLen, data, ms, 0).code == if Room(bufLen, ms) then 0 else 5
    ensures Room(bufLen, ms) <==> |ms| <= 1 || |Body(ms, |ms| - 1)| < bufLen - 100
  {
    StopCode(bufLen, data, ms, 0);
    forall k | 0 < k < |data|
      ensures |Body(ms, k)| <= |Body(ms, |data| - 1)|
    {
      BodyGrows(ms, k, |data| - 1);
    }
  }

  /** On success the buffer holds exactly the members between braces. */
  lemma TextIsJoinedMembers(bufLen: int, data: seq<Slot>, ms: seq<string>)
    requires |ms| == |data| > 0 && Stop(bufLen, data, ms, 0).code == DATA_ERR_SUCCESS
    ensures Text(bufLen, data, ms) == "{" + Join(ms) + "}"
  {
    StopSucceeds(bufLen, data, ms, 0);
    BodyJoins(ms, |data|);
    assert ms[..|data|] == ms;
  }

  /** Without fields the closing brace replaces the opening one: what is left is no object. */
  lemma NoFieldsNoObject(bufLen: int)
    ensures Text(bufLen, [], []) == "}" && !IsObject("}")
  {
    forall ms: seq<string>
      ensures "{" + Join(ms) + "}" != "}"
    {
      assert ("{" + Join(ms) + "}")[0] == '{';
    }
  }

  lemma ObjectEnds(s: string)
    requires IsObject(s)
    ensures s[|s| - 1] == '}'
  {
  }

  /** A printer that gives up never leaves an object, whatever the fields hold. */
  lemma StoppedIsNoObject(bufLen: int, data: seq<Slot>, ms: seq<string>)
    requires |ms| == |data| && Stop(bufLen, data, ms, 0).code != DATA_ERR_SUCCESS
    ensures !IsObject(Text(bufLen, data, ms))
  {
    var text := Body(ms, Stop(bufLen, data, ms, 0).printed);
    assert text[|text| - 1] != '}';
    if IsObject(text) {
      ObjectEnds(text);
    }
  }

  /** Clean fields print as an object exactly when the printer succeeds; no fields do when it does not. */
  lemma TextIsObject(fmt: DoubleFormat, bufLen: int, data: seq<Slot>)
    ensures !Succeeds(fmt, bufLen, data) ==> !IsObject(Text(bufLen, data, Members(fmt, data)))
    ensures data != [] && CleanFields(fmt, data) ==>
              (IsObject(Text(bufLen, data, Members(fmt, data))) <==> Succeeds(fmt, bufLen, data))
  {
    var ms := Members(fmt, data);
    if !Succeeds(fmt, bufLen, data) {
      StoppedIsNoObject(bufLen, data, ms);
    } else if data != [] && CleanFields(fmt, data) {
      TextIsJoinedMembers(bufLen, data, ms);
      forall i | 0 <= i < |data|
        ensures IsMember(ms[i])
      {
        MemberIsMember(fmt, data[i]);
      }
    }
  }

  /** A field without a name prints as C prints a null string. */
  lemma UnnamedLine(fmt: DoubleFormat, f: Slot)
    requires f.alias.None? && f.slotType.TsBool? && f.boolData
    ensures Member(fmt, f) == "\"(null)\":1"
  {
    assert Quoted("(null)") == "\"(null)\"";
  }

  /** One value of each kind as it is printed. */
  lemma SampleValues(fmt: DoubleFormat, f: Slot)
    ensures f.slotType.TsBool? ==> ValueText(fmt, f) == if f.boolData then "1" else "0"
    ensures f.slotType.TsInt? && f.intData == -70 ==> ValueText(fmt, f) == "-70"
    ensures f.slotType.TsLint? && f.longData == 123 ==> ValueText(fmt, f) == "123"
    ensures f.slotType.TsChar? && f.charData == "x" ==> ValueText(fmt, f) == "\"x\""
    ensures f.slotType.TsDouble? && fmt(f.doubleData) == "1.5" ==> ValueText(fmt, f) == "\"1.5\""
  {
    assert Digits(7) == "7" && Digits(70) == "70";
    assert Digits(1) == "1" && Digits(12) == "12" && Digits(123) == "123";
  }

  /** And the text of three fields. */
  lemma SampleText(bufLen: int, data: seq<Slot>)
    requires bufLen >= 200 && |data| == 3 && forall k :: 0 <= k < 3 ==> data[k].slotType.Printable()
    ensures var ms := ["\"a\":1", "\"b\":0", "\"c\":2"];
            && Stop(bufLen, data, ms, 0).code == 0
            && Text(bufLen, data, ms) == "{\"a\":1,\"b\":0,\"c\":2}"
  {
    var ms := ["\"a\":1", "\"b\":0", "\"c\":2"];
    assert Body(ms, 1) == "{\"a\":1,";
    assert Body(ms, 2) == "{\"a\":1,\"b\":0,";
    assert Body(ms, 3) == "{\"a\":1,\"b\":0,\"c\":2,";
    SucceedsExactly(bufLen, data, ms);
    StopSucceeds(bufLen, data, ms, 0);
  }

  lemma SampleLine(fmt: DoubleFormat, f: Slot)
    requires f.alias == Some("a") && f.slotType.TsBool? && f.boolData
    ensures Member(fmt, f) == "\"a\":1"
  {
    assert Quoted("a") == "\"a\"";
  }
}
