/** A reader for the printer's output, and the proof that it recovers every field. */
module JsonParser {
  import opened Types
  import opened Json

  datatype JsonValue = JsonNumber(n: int) | JsonText(s: string)

  type Parsed<T> = Option<(T, string)>

  // ---------- the parser ----------

  function ParseDigits(acc: nat, s: string): (r: (nat, string))
    ensures |r.1| <= |s|
    decreases |s|
  {
    if s != [] && IsDigit(s[0]) then ParseDigits(10 * acc + (s[0] as int - '0' as int), s[1..]) else (acc, s)
  }

  /** An integer; a leading zero must stand alone. */
  function ParseNatural(s: string): (r: Parsed<nat>)
    ensures r.Some? ==> |r.value.1| < |s|
  {
    if s == [] || !IsDigit(s[0]) then None
    else if s[0] == '0' && |s| > 1 && IsDigit(s[1]) then None
    else Some(ParseDigits(s[0] as int - '0' as int, s[1..]))
  }

  function ParseNumber(s: string): (r: Parsed<int>)
    ensures r.Some? ==> |r.value.1| < |s|
  {
    if s != [] && s[0] == '-' then
      var p := ParseNatural(s[1..]);
      if p.None? then None
      else
        var n: int := 0 - p.value.0;
        Some((n, p.value.1))
    else ParseNatural(s)
  }

  /** Characters up to the closing quote. */
  function ParseChars(s: string): (r: Parsed<string>)
    ensures r.Some? ==> |r.value.1| < |s|
  {
    if s == [] then None
    else if s[0] == '"' then Some(("", s[1..]))
    else if !Unescaped(s[0]) then None
    else match ParseChars(s[1..])
      case None => None
      case Some((text, rest)) => Some(([s[0]] + text, rest))
  }

  function ParseString(s: string): (r: Parsed<string>)
    ensures r.Some? ==> |r.value.1| < |s|
  {
    if s == [] || s[0] != '"' then None else ParseChars(s[1..])
  }

  function ParseValue(s: string): (r: Parsed<JsonValue>)
    ensures r.Some? ==> |r.value.1| < |s|
  {
    if s != [] && s[0] == '"' then
      match ParseString(s)
      case None => None
      case Some((text, rest)) => Some((JsonText(text), rest))
    else
      match ParseNumber(s)
      case None => None
      case Some((n, rest)) => Some((JsonNumber(n), rest))
  }

  function ParseMember(s: string): (r: Parsed<(string, JsonValue)>)
    ensures r.Some? ==> |r.value.1| < |s|
  {
    match ParseString(s)
    case None => None
    case Some((name, rest)) =>
      if rest == [] || rest[0] != ':' then None
      else match ParseValue(rest[1..])
        case None => None
        case Some((value, rest')) => Some(((name, value), rest'))
  }

  /** Members up to a closing brace that ends the text. */
  function ParseMembers(s: string): Option<seq<(string, JsonValue)>>
    decreases |s|
  {
    match ParseMember(s)
    case None => None
    case Some((m, rest)) =>
      if rest == "}" then Some([m])
      else if rest == [] || rest[0] != ',' then None
      else match ParseMembers(rest[1..])
        case None => None
        case Some(ms) => Some([m] + ms)
  }

  function ParseObject(s: string): Option<seq<(string, JsonValue)>> {
    if s == [] || s[0] != '{' then None else ParseMembers(s[1..])
  }

  // ---------- the inverse ----------

  function FieldValue(fmt: DoubleFormat, f: Slot): JsonValue
    requires f.WellFormed()
  {
    match f.slotType
    case TsBool => JsonNumber(if f.boolData then 1 else 0)
    case TsInt => JsonNumber(f.intData)
    case TsLint => JsonNumber(f.longData)
    case TsDouble => JsonText(fmt(f.doubleData))
    case TsChar => JsonText(f.charData)
  }

  /** The fields a snapshot should be read back as: alias and value, in order. */
  function Fields(fmt: DoubleFormat, data: seq<Slot>): (r: seq<(string, JsonValue)>)
    requires CleanFields(fmt, data)
    ensures |r| == |data|
  {
    seq(|data|, i requires 0 <= i < |data| => (data[i].alias.value, FieldValue(fmt, data[i])))
  }

  /** The text after a value: never a digit. */
  predicate Ends(rest: string) {
    rest != [] && !IsDigit(rest[0])
  }

  lemma {:induction false} DigitsRead(n: nat, rest: string)
    ensures ParseDigits(0, Digits(n) + rest) == ParseDigits(n, rest)
  {
    if n < 10 {
      assert (Digits(n) + rest)[1..] == rest;
    } else {
      var last := [DigitChar(n % 10)];
      assert Digits(n) + rest == Digits(n / 10) + (last + rest);
      DigitsRead(n / 10, last + rest);
      assert (last + rest)[1..] == rest;
    }
  }

  /** A printed number starts with a digit, and with 0 only if that is all of it. */
  lemma FirstDigit(n: nat, rest: string)
    requires Ends(rest)
    ensures var s := Digits(n) + rest;
            && |s| > 1 && IsDigit(s[0]) && !(s[0] == '0' && IsDigit(s[1]))
  {
    DigitsAreNumber(n);
    assert (Digits(n) + rest)[0] == Digits(n)[0];
    if n == 0 {
      assert Digits(0) == [DigitChar(0)];
    }
  }

  lemma DigitsFromFirst(s: string)
    requires s != [] && IsDigit(s[0])
    ensures ParseDigits(0, s) == ParseDigits(s[0] as int - '0' as int, s[1..])
  {
  }

  lemma ParsedRest(n: nat, rest: string)
    requires Ends(rest)
    ensures ParseDigits(n, rest) == (n, rest)
  {
  }

  lemma NaturalRead(n: nat, rest: string)
    requires Ends(rest)
    ensures ParseNatural(Digits(n) + rest) == Some((n, rest))
  {
    FirstDigit(n, rest);
    DigitsFromFirst(Digits(n) + rest);
    DigitsRead(n, rest);
    ParsedRest(n, rest);
  }

  lemma NegativeRead(n: int, rest: string)
    requires n < 0 && Ends(rest)
    ensures ParseNumber("-" + Digits(-n) + rest) == Some((n, rest))
  {
    NaturalRead(-n, rest);
    var s := "-" + Digits(-n) + rest;
    assert s[0] == '-' && s[1..] == Digits(-n) + rest;
  }

  /** Decimal printing and parsing are inverse for every integer. */
  lemma NumberRead(n: int, rest: string)
    requires Ends(rest)
    ensures ParseNumber(Decimal(n) + rest) == Some((n, rest))
  {
    if n < 0 {
      NegativeRead(n, rest);
    } else {
      NaturalRead(n, rest);
      DigitsAreNumber(n);
      assert (Digits(n) + rest)[0] == Digits(n)[0];
    }
  }

  lemma {:induction false} CharsRead(text: string, rest: string)
    requires Clean(text)
    ensures ParseChars(text + "\"" + rest) == Some((text, rest))
  {
    var s := text + "\"" + rest;
    if text == [] {
      assert s[1..] == rest;
    } else {
      CharsRead(text[1..], rest);
      assert s[1..] == text[1..] + "\"" + rest;
      assert s[0] == text[0] && [text[0]] + text[1..] == text;
    }
  }

  lemma StringRead(text: string, rest: string)
    requires Clean(text)
    ensures ParseString(Quoted(text) + rest) == Some((text, rest))
  {
    CharsRead(text, rest);
    assert (Quoted(text) + rest)[1..] == text + "\"" + rest;
  }

  lemma NumberValueRead(n: int, rest: string)
    requires Ends(rest)
    ensures ParseValue(Decimal(n) + rest) == Some((JsonNumber(n), rest))
  {
    NumberRead(n, rest);
    DigitsAreNumber(if n < 0 then -n else n);
    assert (Decimal(n) + rest)[0] == Decimal(n)[0] != '"';
  }

  lemma TextValueRead(text: string, rest: string)
    requires Clean(text)
    ensures ParseValue(Quoted(text) + rest) == Some((JsonText(text), rest))
  {
    StringRead(text, rest);
  }

  lemma ValueRead(fmt: DoubleFormat, f: Slot, rest: string)
    requires CleanField(fmt, f) && Ends(rest)
    ensures ParseValue(ValueText(fmt, f) + rest) == Some((FieldValue(fmt, f), rest))
  {
    match f.slotType {
      case TsBool =>
        NumberValueRead(if f.boolData then 1 else 0, rest);
        assert Decimal(1) == "1" && Decimal(0) == "0";
      case TsInt => NumberValueRead(f.intData, rest);
      case TsLint => NumberValueRead(f.longData, rest);
      case TsDouble => TextValueRead(fmt(f.doubleData), rest);
      case TsChar => TextValueRead(f.charData, rest);
      case _ =>
    }
  }

  lemma MemberRead(fmt: DoubleFormat, f: Slot, rest: string)
    requires CleanField(fmt, f) && Ends(rest)
    ensures ParseMember(Member(fmt, f) + rest) == Some(((f.alias.value, FieldValue(fmt, f)), rest))
  {
    var value := ValueText(fmt, f);
    assert Member(fmt, f) + rest == Quoted(f.alias.value) + (":" + value + rest);
    StringRead(f.alias.value, ":" + value + rest);
    assert (":" + value + rest)[1..] == value + rest;
    ValueRead(fmt, f, rest);
  }

  lemma {:induction false} JoinHead(ms: seq<string>)
    requires |ms| > 1
    ensures Join(ms) == ms[0] + "," + Join(ms[1..])
  {
    var last := |ms| - 1;
    if |ms| == 2 {
      assert ms[..1] == [ms[0]] && ms[1..] == [ms[1]];
    } else {
      JoinHead(ms[..last]);
      assert ms[..last][1..] == ms[1..][..last - 1];
      Associate(ms[0], Join(ms[1..][..last - 1]), ms[last]);
    }
  }

  lemma Associate(a: string, b: string, c: string)
    ensures a + "," + b + "," + c == a + "," + (b + "," + c)
  {
  }

  lemma LastMember(s: string, m: (string, JsonValue))
    requires ParseMember(s) == Some((m, "}"))
    ensures ParseMembers(s) == Some([m])
  {
  }

  lemma OneMoreMember(s: string, m: (string, JsonValue), tail: string, ms: seq<(string, JsonValue)>)
    requires ParseMember(s) == Some((m, "," + tail)) && ParseMembers(tail) == Some(ms)
    ensures ParseMembers(s) == Some([m] + ms)
  {
    assert ("," + tail)[0] == ',' && ("," + tail)[1..] == tail;
  }

  /** A text that parses as a given member wherever it stands. */
  ghost predicate ReadsAs(text: string, m: (string, JsonValue)) {
    forall rest :: Ends(rest) ==> ParseMember(text + rest) == Some((m, rest))
  }

  lemma ReadThenMore(text: string, m: (string, JsonValue), tail: string, ms: seq<(string, JsonValue)>)
    requires ReadsAs(text, m) && ParseMembers(tail) == Some(ms)
    ensures ParseMembers(text + ("," + tail)) == Some([m] + ms)
  {
    assert Ends("," + tail) by { assert ("," + tail)[0] == ','; }
    OneMoreMember(text + ("," + tail), m, tail, ms);
  }

  lemma ReadThenEnd(text: string, m: (string, JsonValue))
    requires ReadsAs(text, m)
    ensures ParseMembers(text + "}") == Some([m])
  {
    assert Ends("}");
    LastMember(text + "}", m);
  }

  lemma Comma(text: string, tail: string)
    ensures text + "," + tail + "}" == text + ("," + (tail + "}"))
  {
  }

  lemma {:induction false} JoinRead(texts: seq<string>, ms: seq<(string, JsonValue)>)
    requires |texts| == |ms| > 0 && forall i :: 0 <= i < |ms| ==> ReadsAs(texts[i], ms[i])
    ensures ParseMembers(Join(texts) + "}") == Some(ms)
  {
    if |ms| == 1 {
      ReadThenEnd(texts[0], ms[0]);
      assert ms == [ms[0]];
    } else {
      JoinRead(texts[1..], ms[1..]);
      JoinHead(texts);
      Comma(texts[0], Join(texts[1..]));
      ReadThenMore(texts[0], ms[0], Join(texts[1..]) + "}", ms[1..]);
      assert ms == [ms[0]] + ms[1..];
    }
  }

  lemma MembersRead(fmt: DoubleFormat, data: seq<Slot>)
    requires CleanFields(fmt, data) && data != []
    ensures ParseMembers(Join(Members(fmt, data)) + "}") == Some(Fields(fmt, data))
  {
    var ms, fields := Members(fmt, data), Fields(fmt, data);
    forall i | 0 <= i < |data|
      ensures ReadsAs(ms[i], fields[i])
    {
      forall rest | Ends(rest)
        ensures ParseMember(ms[i] + rest) == Some((fields[i], rest))
      {
        MemberRead(fmt, data[i], rest);
      }
    }
    JoinRead(ms, fields);
  }

  /** Whenever the printer succeeds on clean fields, reading the buffer gives back every alias and value, in order. */
  lemma ParseInvertsPrint(fmt: DoubleFormat, bufLen: int, data: seq<Slot>)
    requires Succeeds(fmt, bufLen, data) && data != [] && CleanFields(fmt, data)
    ensures ParseObject(Text(bufLen, data, Members(fmt, data))) == Some(Fields(fmt, data))
  {
    var ms := Members(fmt, data);
    TextIsJoinedMembers(bufLen, data, ms);
    MembersRead(fmt, data);
    BracesRead(Join(ms));
  }

  lemma BracesRead(body: string)
    ensures ParseObject("{" + body + "}") == ParseMembers(body + "}")
  {
    assert ("{" + body + "}")[1..] == body + "}";
  }
}
