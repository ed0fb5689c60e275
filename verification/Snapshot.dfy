/** The text of a snapshot: module Machine says what the slots hold when the loop sends,
    module Json what becomes of them. */
module Snapshot {
  import opened CInts
  import opened Types
  import Counters
  import opened Machine
  import opened EndToEnd
  import opened Json
  import opened JsonParser
  import Runs = ClientRuns

  const MAX_BUF := 1024 * 3

  /** The fields handed to get_json. */
  function FieldsSent(c: Config, tr: Trace): (data: seq<Slot>)
    requires c.Fits()
    ensures |data| == SF_CLIENT_POS + |c.clients|
  {
    DataAfter(c, tr).slots[..SF_CLIENT_POS + |c.clients|]
  }

  /** Of every snapshot of every run: the printer never meets an unknown type, it fails exactly for lack of
      room, and then what the broker gets is no JSON object. If no text in the fields needs escaping it is one
      exactly when there was room, and reading it gives back every name and value. */
  lemma SnapshotText(c: Config, tr: Trace, fmt: DoubleFormat, bufLen: int)
    requires c.Fits() && Legal(c, tr) && !tr.Empty? && tr.last.Sent?
    ensures var data := FieldsSent(c, tr);
            var ms := Members(fmt, data);
            && Stop(bufLen, data, ms, 0).code == (if Room(bufLen, ms) then DATA_ERR_SUCCESS else DATA_ERR_BUF)
            && (!Room(bufLen, ms) ==> !IsObject(Text(bufLen, data, ms)))
            && (CleanFields(fmt, data) ==>
                  && (IsObject(Text(bufLen, data, ms)) <==> Room(bufLen, ms))
                  && (Room(bufLen, ms) ==> ParseObject(Text(bufLen, data, ms)) == Some(Fields(fmt, data))))
  {
    var data := FieldsSent(c, tr);
    SnapshotsPrintable(c, tr);
    SucceedsExactly(bufLen, data, Members(fmt, data));
    TextIsObject(fmt, bufLen, data);
    if CleanFields(fmt, data) {
      if Room(bufLen, Members(fmt, data)) {
        ParseInvertsPrint(fmt, bufLen, data);
      }
    }
  }

  // ---------- gateways whose values have a bounded text ----------

  /** Types whose values print in at most 11 characters. */
  predicate Plain(t: DataType) {
    t.Bool? || t.Int? || t.Dword? || t.Enum?
  }

  predicate PlainClients(c: Config) {
    forall i :: 0 <= i < |c.clients| ==> Plain(c.clients[i].dataType)
  }

  /** What a slot of such a client holds. */
  predicate PlainSlot(client: ClientSettings, s: Slot) {
    && s.alias == Some(client.name)
    && (s.slotType.TsBool? || s.slotType.TsInt? || (s.slotType.TsLint? && -TWO31 <= s.longData < TWO32))
  }

  /** A reading of the client's type leaves such a slot, through any counter and multiplier. */
  lemma SurveyedPlain(w: LongWidth, client: ClientSettings, info: Counters.CounterInfo, slot: Slot,
                      d: ClientData, scale: bool)
    requires Plain(client.dataType) && info.added && d.dataType == client.dataType
    ensures PlainSlot(client, Runs.Surveyed(w, client, info, slot, d, scale).1)
  {
  }

  /** From its INIT poll on, a plain client's slot is plain. */
  lemma {:induction false} ClientSlotPlain(c: Config, tr: Trace, i: nat)
    requires c.Fits() && Legal(c, tr) && i < |c.clients| && Plain(c.clients[i].dataType) && Introduced(At(c, tr), i)
    ensures PlainSlot(c.clients[i], Part(c, DataAfter(c, tr), i).slot)
  {
    if !tr.Empty? {
      var k, s, e := At(c, tr.earlier), DataAfter(c, tr.earlier), tr.last;
      if Introduced(k, i) {
        ClientSlotPlain(c, tr.earlier, i);
      }
      PartStep(c, s, e, i);
      IntroductionStep(c, k, e, i);
      Projection(c, tr.earlier, i);
      Runs.StaysAdded(c.width, c.clients[i], History(tr.earlier, i));
      if Seen(e, i).Some? && Runs.IsReading(Seen(e, i).value) {
        var d := Runs.Counted(c.clients[i], Seen(e, i).value);
        SurveyedPlain(c.width, c.clients[i], Part(c, s, i).info, Part(c, s, i).slot, d, Seen(e, i).value.Read?);
      }
    }
  }

  predicate Field(s: Slot, name: string, t: SlotType) {
    s.alias == Some(name) && s.slotType == t
  }

  /** Device field j; only the time stamp changes. */
  predicate DeviceSlot(j: nat, s: Slot) {
    match j
    case 0 => Field(s, "bat", TsInt) && s.intData == 95
    case 1 => Field(s, "sig", TsInt) && s.intData == 25
    case 2 => Field(s, "ver", TsChar) && s.charData == "0.0.1+linux"
    case 3 => Field(s, "ts", TsLint)
    case 4 => Field(s, "id", TsInt) && s.intData == 0
    case 5 => Field(s, "ep", TsChar) && s.charData == "868186040127613"
    case 6 => Field(s, "type", TsChar) && s.charData == "full"
    case 7 => Field(s, "lon", TsDouble) && s.doubleData == 18.0993
    case 8 => Field(s, "lat", TsDouble) && s.doubleData == 54.084
    case _ => Field(s, "loc", TsInt) && s.intData == 1
  }

  /** The device fields are in place. */
  predicate DeviceSlots(slots: seq<Slot>)
    requires |slots| >= SF_CLIENT_POS
  {
    forall j :: 0 <= j < SF_CLIENT_POS ==> DeviceSlot(j, slots[j])
  }

  /** From the start of the INIT pass on they stay so. */
  lemma {:induction false} DeviceFieldsStay(c: Config, tr: Trace)
    requires c.Fits() && Legal(c, tr) && !At(c, tr).pc.Boot?
    ensures DeviceSlots(DataAfter(c, tr).slots)
  {
    if !tr.last.Prepared? {
      DeviceFieldsStay(c, tr.earlier);
    }
    DeviceStep(c, DataAfter(c, tr.earlier), tr.last);
  }

  lemma DeviceStep(c: Config, s: Data, e: Event)
    requires Shaped(c, s) && (e.Prepared? || DeviceSlots(s.slots))
    ensures DeviceSlots(Record(c, s, e).slots)
  {
    if e.InitAnswered? || e.InitSilent? || e.Answered? {
      assert Record(c, s, e).slots[..SF_CLIENT_POS] == s.slots[..SF_CLIENT_POS];
    }
  }

  // ---------- the fields of one snapshot ----------

  /** The fields of a snapshot of plain clients. */
  predicate PlainFields(c: Config, data: seq<Slot>) {
    && |data| == SF_CLIENT_POS + |c.clients| && DeviceSlots(data)
    && forall i :: 0 <= i < |c.clients| ==> PlainSlot(c.clients[i], data[SF_CLIENT_POS + i])
  }

  lemma SentFieldsPlain(c: Config, tr: Trace)
    requires c.Fits() && PlainClients(c) && Legal(c, tr) && !tr.Empty? && tr.last.Sent?
    ensures PlainFields(c, FieldsSent(c, tr)) && FieldsSent(c, tr)[3].longData == tr.last.now
  {
    var data := FieldsSent(c, tr);
    DeviceFieldsStay(c, tr);
    forall i | 0 <= i < |c.clients|
      ensures PlainSlot(c.clients[i], data[SF_CLIENT_POS + i])
    {
      ClientSlotPlain(c, tr, i);
    }
    TimeStamp(c, DataAfter(c, tr.earlier), tr.last);
  }

  lemma TimeStamp(c: Config, s: Data, e: Event)
    requires Shaped(c, s) && e.Sent?
    ensures Record(c, s, e).slots[3].longData == e.now
  {
  }

  /** What %f makes of the two fixed coordinates has at most n characters. */
  predicate ShortCoordinates(fmt: DoubleFormat, n: nat) {
    |fmt(18.0993)| <= n && |fmt(54.084)| <= n
  }

  lemma DeviceLine(fmt: DoubleFormat, n: nat, j: nat, s: Slot)
    requires j < SF_CLIENT_POS && DeviceSlot(j, s) && ShortCoordinates(fmt, n) && -TWO63 <= s.longData < TWO63
    ensures 6 <= |Member(fmt, s)| + 1 <= Max(26, n + 9)
  {
    BoundedMembers(fmt, s);
  }

  /** The time stamp is the only 64-bit number among the device fields. */
  lemma DeviceLines(fmt: DoubleFormat, n: nat, slots: seq<Slot>, j: nat)
    requires j < SF_CLIENT_POS <= |slots| && DeviceSlots(slots) && ShortCoordinates(fmt, n)
    requires -TWO63 <= slots[3].longData < TWO63
    ensures 6 <= |Member(fmt, slots[j])| + 1 <= Max(26, n + 9)
  {
    var s := slots[j];
    assert DeviceSlot(j, s);
    DeviceLine(fmt, n, j, if s.slotType.TsLint? then s else s.(longData := 0));
  }

  lemma PlainLine(fmt: DoubleFormat, client: ClientSettings, s: Slot)
    requires PlainSlot(client, s)
    ensures |client.name| + 4 <= |Member(fmt, s)| + 1 <= |client.name| + 15
  {
    BoundedMembers(fmt, s);
  }

  /** Every line of such a snapshot fits. */
  lemma PlainLinesFit(c: Config, fmt: DoubleFormat, data: seq<Slot>)
    requires c.Valid() && PlainFields(c, data) && ShortCoordinates(fmt, 80) && -TWO63 <= data[3].longData < TWO63
    ensures LinesFit(Members(fmt, data))
  {
    forall j | 0 <= j < |data|
      ensures |Member(fmt, data[j])| + 1 <= DATA_MAX_LINE_LEN
    {
      if j < SF_CLIENT_POS {
        DeviceLines(fmt, 80, data, j);
      } else {
        var client := c.clients[j - SF_CLIENT_POS];
        assert ValidClient(client, j - SF_CLIENT_POS) && PlainSlot(client, data[SF_CLIENT_POS + (j - SF_CLIENT_POS)]);
        PlainLine(fmt, client, data[j]);
      }
    }
  }

  /** What lines a to n - 1 add to the text if none is longer than hi. */
  lemma {:induction false} LinesAtMost(ms: seq<string>, a: nat, n: nat, hi: nat)
    requires a <= n <= |ms| && forall k :: a <= k < n ==> |ms[k]| + 1 <= hi
    ensures |Body(ms, n)| <= |Body(ms, a)| + hi * (n - a)
    decreases n
  {
    if a < n {
      LinesAtMost(ms, a, n - 1, hi);
      assert hi * (n - a) == hi * (n - 1 - a) + hi;
    }
  }

  /** And if none is shorter than lo. */
  lemma {:induction false} LinesAtLeast(ms: seq<string>, a: nat, n: nat, lo: nat)
    requires a <= n <= |ms| && forall k :: a <= k < n ==> lo <= |ms[k]| + 1
    ensures |Body(ms, a)| + lo * (n - a) <= |Body(ms, n)|
    decreases n
  {
    if a < n {
      LinesAtLeast(ms, a, n - 1, lo);
      assert lo * (n - a) == lo * (n - 1 - a) + lo;
    }
  }

  /** Short device lines leave room for 29 client lines of 95 characters. */
  lemma FewLinesHaveRoom(ms: seq<string>)
    requires SF_CLIENT_POS <= |ms| <= SF_CLIENT_POS + 29
    requires forall k :: 0 <= k < SF_CLIENT_POS ==> |ms[k]| + 1 <= 29
    requires forall k :: SF_CLIENT_POS <= k < |ms| ==> |ms[k]| + 1 <= 95
    ensures Room(MAX_BUF, ms)
  {
    var last := |ms| - 1;
    LinesAtMost(ms, 0, if last < SF_CLIENT_POS then last else SF_CLIENT_POS, 29);
    if last >= SF_CLIENT_POS {
      LinesAtMost(ms, SF_CLIENT_POS, last, 95);
    }
  }

  /** How few clients surely leave room depends on how long %f makes the two coordinates. */
  predicate FewClients(c: Config, fmt: DoubleFormat) {
    || (|c.clients| <= 20 && ShortCoordinates(fmt, 80))
    || (|c.clients| <= 29 && ShortCoordinates(fmt, 20))
  }

  lemma PlainFieldsHaveRoom(c: Config, fmt: DoubleFormat, data: seq<Slot>)
    requires c.Valid() && PlainFields(c, data) && FewClients(c, fmt) && -TWO63 <= data[3].longData < TWO63
    ensures Room(MAX_BUF, Members(fmt, data))
  {
    var ms := Members(fmt, data);
    if |c.clients| <= 20 && ShortCoordinates(fmt, 80) {
      PlainLinesFit(c, fmt, data);
      LinesAtMost(ms, 0, |ms| - 1, DATA_MAX_LINE_LEN);
    } else {
      forall k | 0 <= k < |data|
        ensures |Member(fmt, data[k])| + 1 <= if k < SF_CLIENT_POS then 29 else 95
      {
        if k < SF_CLIENT_POS {
          DeviceLines(fmt, 20, data, k);
        } else {
          ClientLine(c, fmt, data, k);
        }
      }
      FewLinesHaveRoom(ms);
    }
  }

  lemma ClientLine(c: Config, fmt: DoubleFormat, data: seq<Slot>, k: nat)
    requires PlainFields(c, data) && SF_CLIENT_POS <= k < |data|
    ensures var name := c.clients[k - SF_CLIENT_POS].name;
            |name| + 4 <= |Member(fmt, data[k])| + 1 <= |name| + 15
    ensures c.Valid() ==> |Member(fmt, data[k])| + 1 <= 95
  {
    var i := k - SF_CLIENT_POS;
    assert PlainSlot(c.clients[i], data[SF_CLIENT_POS + i]);
    PlainLine(fmt, c.clients[i], data[k]);
    assert c.Valid() ==> ValidClient(c.clients[i], i);
  }

  /** A gateway whose clients are all BOOL, INT, DWORD or ENUM never writes past the send buffer, in any snapshot
      of any run; and with few enough of them every snapshot has room. */
  lemma PlainSnapshotsFit(c: Config, tr: Trace, fmt: DoubleFormat)
    requires c.Valid() && PlainClients(c) && ShortCoordinates(fmt, 80)
    requires Legal(c, tr) && !tr.Empty? && tr.last.Sent? && -TWO63 <= tr.last.now < TWO63
    ensures var data := FieldsSent(c, tr);
            var ms := Members(fmt, data);
            && Extent(3072, data, ms) <= 3072
            && (FewClients(c, fmt) ==> Room(MAX_BUF, ms))
  {
    var data := FieldsSent(c, tr);
    SentFieldsPlain(c, tr);
    PlainLinesFit(c, fmt, data);
    WritesStayInside(MAX_BUF, data, Members(fmt, data));
    if FewClients(c, fmt) {
      PlainFieldsHaveRoom(c, fmt, data);
    }
  }

  lemma ManyLongLines(ms: seq<string>)
    requires |ms| >= SF_CLIENT_POS + 36
    requires forall k :: 0 <= k < SF_CLIENT_POS ==> 6 <= |ms[k]| + 1
    requires forall k :: SF_CLIENT_POS <= k < |ms| ==> 84 <= |ms[k]| + 1
    ensures !Room(MAX_BUF, ms)
  {
    LinesAtLeast(ms, 0, SF_CLIENT_POS, 6);
    LinesAtLeast(ms, SF_CLIENT_POS, |ms| - 1, 84);
  }

  lemma LongNamesHaveNoRoom(c: Config, fmt: DoubleFormat, data: seq<Slot>)
    requires PlainFields(c, data) && |c.clients| >= 36
    requires forall i :: 0 <= i < |c.clients| ==> |c.clients[i].name| == MAX_CLIENT_NAME_LEN
    ensures !Room(MAX_BUF, Members(fmt, data))
  {
    forall k | 0 <= k < |data|
      ensures (if k < SF_CLIENT_POS then 6 else 84) <= |Member(fmt, data[k])| + 1
    {
      if k < SF_CLIENT_POS {
        assert DeviceSlot(k, data[k]);
        BoundedMembers(fmt, data[k]);
      } else {
        ClientLine(c, fmt, data, k);
      }
    }
    ManyLongLines(Members(fmt, data));
  }

  /** With 36 such clients or more whose names have 80 characters no snapshot of any run has room. */
  lemma LongNamesCutOff(c: Config, tr: Trace, fmt: DoubleFormat)
    requires c.Fits() && PlainClients(c) && |c.clients| >= 36 && Legal(c, tr) && !tr.Empty? && tr.last.Sent?
    requires forall i :: 0 <= i < |c.clients| ==> |c.clients[i].name| == MAX_CLIENT_NAME_LEN
    ensures !Room(MAX_BUF, Members(fmt, FieldsSent(c, tr)))
  {
    SentFieldsPlain(c, tr);
    LongNamesHaveNoRoom(c, fmt, FieldsSent(c, tr));
  }

  // ---------- clean snapshots ----------

  /** No client name and no coordinate needs escaping. */
  predicate CleanNames(c: Config, fmt: DoubleFormat) {
    && (forall i :: 0 <= i < |c.clients| ==> Clean(c.clients[i].name))
    && Clean(fmt(18.0993)) && Clean(fmt(54.084))
  }

  lemma DeviceFieldClean(c: Config, fmt: DoubleFormat, j: nat, s: Slot)
    requires j < SF_CLIENT_POS && DeviceSlot(j, s) && CleanNames(c, fmt)
    ensures CleanField(fmt, s)
  {
  }

  lemma PlainFieldsClean(c: Config, fmt: DoubleFormat, data: seq<Slot>)
    requires PlainFields(c, data) && CleanNames(c, fmt)
    ensures CleanFields(fmt, data)
  {
    forall j | 0 <= j < |data|
      ensures CleanField(fmt, data[j])
    {
      if j < SF_CLIENT_POS {
        DeviceFieldClean(c, fmt, j, data[j]);
      } else {
        assert PlainSlot(c.clients[j - SF_CLIENT_POS], data[SF_CLIENT_POS + (j - SF_CLIENT_POS)]);
      }
    }
  }

  /** With clean names as well, every such snapshot is an object that reads back as the slots. */
  lemma PlainSnapshotsReadBack(c: Config, tr: Trace, fmt: DoubleFormat)
    requires c.Valid() && PlainClients(c) && CleanNames(c, fmt) && FewClients(c, fmt)
    requires Legal(c, tr) && !tr.Empty? && tr.last.Sent? && -TWO63 <= tr.last.now < TWO63
    ensures var data := FieldsSent(c, tr);
            var text := Text(MAX_BUF, data, Members(fmt, data));
            && CleanFields(fmt, data)
            && IsObject(text) && ParseObject(text) == Some(Fields(fmt, data))
  {
    SentFieldsPlain(c, tr);
    PlainFieldsClean(c, fmt, FieldsSent(c, tr));
    PlainFieldsHaveRoom(c, fmt, FieldsSent(c, tr));
    SnapshotText(c, tr, fmt, MAX_BUF);
  }
}
