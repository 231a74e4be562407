/** Names in DNS messages: labels and compression pointers (sections 3.1 and 4.1.4 of RFC 1035). */
module DnsName {
  import opened Wrappers

  type Octet = x: int | 0 <= x < 256
  type Bytes = seq<Octet>

  const DOT: Octet := 46
  const MAX_JUMPS := 64
  const MAX_TOTAL := 255

  datatype Result<T> = Ok(value: T) | Err(error: Error)
  datatype Error = Truncated | CompressionLoop | BadLabelType | NameTooLong | BadName

  // ---- what a name at an offset is ----

  // How a name is spelled out: labels and pointers up to the root label.
  datatype Reading = Root | Label(rest: Reading) | Pointer(rest: Reading)

  function Target(msg: Bytes, off: int): int
    requires 0 <= off && off + 1 < |msg|
  {
    var hi: int, lo: int := msg[off], msg[off + 1];
    hi % 64 * 256 + lo
  }

  // The two top bits mark a pointer, the others say where to (section 4.1.4 of RFC 1035).
  lemma PointerBits(msg: Bytes, off: int)
    requires 0 <= off && off + 1 < |msg| && msg[off] >= 0xC0
    ensures Word(msg, off) == 0xC000 + Target(msg, off)
  {
  }

  ghost predicate Reads(msg: Bytes, off: int, r: Reading)
    decreases r
  {
    0 <= off < |msg| &&
    match r
    case Root => msg[off] == 0
    case Label(rest) => 1 <= msg[off] <= 63 && off + 1 + msg[off] <= |msg| && Reads(msg, off + 1 + msg[off], rest)
    case Pointer(rest) => msg[off] >= 192 && off + 1 < |msg| && Reads(msg, Target(msg, off), rest)
  }

  ghost function LabelsOf(msg: Bytes, off: int, r: Reading): seq<Bytes>
    requires Reads(msg, off, r)
    decreases r
  {
    match r
    case Root => []
    case Label(rest) => [msg[off + 1..off + 1 + msg[off]]] + LabelsOf(msg, off + 1 + msg[off], rest)
    case Pointer(rest) => LabelsOf(msg, Target(msg, off), rest)
  }

  ghost function Octets(msg: Bytes, off: int, r: Reading): nat
    requires Reads(msg, off, r)
    decreases r
  {
    match r
    case Root => 0
    case Label(rest) => msg[off] + 1 + Octets(msg, off + 1 + msg[off], rest)
    case Pointer(rest) => Octets(msg, Target(msg, off), rest)
  }

  ghost function Jumps(r: Reading): nat {
    match r
    case Root => 0
    case Label(rest) => Jumps(rest)
    case Pointer(rest) => Jumps(rest) + 1
  }

  // The offset after the name: past the root label or the first pointer.
  ghost function EndOf(msg: Bytes, off: int, r: Reading): int
    requires Reads(msg, off, r)
    decreases r
  {
    match r
    case Root => off + 1
    case Label(rest) => EndOf(msg, off + 1 + msg[off], rest)
    case Pointer(rest) => off + 2
  }

  // An offset spells at most one name.
  lemma {:induction false} OneReading(msg: Bytes, off: int, r: Reading, r': Reading)
    requires Reads(msg, off, r) && Reads(msg, off, r')
    ensures r == r'
    decreases r
  {
    match r
    case Root =>
    case Label(rest) => OneReading(msg, off + 1 + msg[off], rest, r'.rest);
    case Pointer(rest) => OneReading(msg, Target(msg, off), rest, r'.rest);
  }

  // A name the reader takes: spelled out with at most 64 pointers and 255 octets before the root label.
  ghost predicate Acceptable(msg: Bytes, off: int, r: Reading) {
    Reads(msg, off, r) && Jumps(r) <= MAX_JUMPS && Octets(msg, off, r) <= MAX_TOTAL
  }

  function Join(labels: seq<Bytes>): Bytes {
    if labels == [] then []
    else if |labels| == 1 then labels[0]
    else labels[0] + [DOT] + Join(labels[1..])
  }

  ghost predicate NameAt(msg: Bytes, off: int, name: Bytes, end: int) {
    exists r :: Acceptable(msg, off, r) && name == Join(LabelsOf(msg, off, r)) && end == EndOf(msg, off, r)
  }

  ghost predicate SomeNameAt(msg: Bytes, off: int) {
    exists r :: Acceptable(msg, off, r)
  }

  // ---- the reader ----

  // The reading found within the given budgets of pointers and octets.
  ghost function Scan(msg: Bytes, off: int, jumps: int, octets: int): Option<Reading>
    decreases if jumps < 0 then 0 else jumps + 1, if octets < 0 then 0 else octets
  {
    if !(0 <= off < |msg|) then None
    else if msg[off] == 0 then Some(Root)
    else if msg[off] >= 192 then
      if off + 1 >= |msg| || jumps <= 0 then None
      else
        var r := Scan(msg, Target(msg, off), jumps - 1, octets);
        if r.Some? then Some(Pointer(r.value)) else None
    else if msg[off] >= 64 || off + 1 + msg[off] > |msg| || octets < msg[off] + 1 then None
    else
      var r := Scan(msg, off + 1 + msg[off], jumps, octets - msg[off] - 1);
      if r.Some? then Some(Label(r.value)) else None
  }

  lemma {:induction false} ScanSound(msg: Bytes, off: int, jumps: int, octets: int)
    requires 0 <= jumps && 0 <= octets && Scan(msg, off, jumps, octets).Some?
    ensures var r := Scan(msg, off, jumps, octets).value;
            Reads(msg, off, r) && Jumps(r) <= jumps && Octets(msg, off, r) <= octets
    decreases jumps, octets
  {
    if msg[off] == 0 {
    } else if msg[off] >= 192 {
      ScanSound(msg, Target(msg, off), jumps - 1, octets);
    } else {
      ScanSound(msg, off + 1 + msg[off], jumps, octets - msg[off] - 1);
    }
  }

  lemma {:induction false} ScanComplete(msg: Bytes, off: int, jumps: int, octets: int, r: Reading)
    requires Reads(msg, off, r) && Jumps(r) <= jumps && Octets(msg, off, r) <= octets
    ensures Scan(msg, off, jumps, octets) == Some(r)
    decreases r
  {
    match r
    case Root =>
    case Label(rest) => ScanComplete(msg, off + 1 + msg[off], jumps, octets - msg[off] - 1, rest);
    case Pointer(rest) => ScanComplete(msg, Target(msg, off), jumps - 1, octets, rest);
  }

  // Where the reader is: the offset, the labels so far, the end of the name once it has followed a pointer
  // (-1 before), the pointers followed and the octets read.
  datatype Walk = Walk(off: int, labels: seq<Bytes>, end: int, jumps: int, total: int)

  // The whole reading is what has been read and what the scan finds from here.
  ghost predicate OnTheWay(msg: Bytes, start: int, w: Walk) {
    && 0 <= w.jumps <= MAX_JUMPS && 0 <= w.total <= MAX_TOTAL
    && (w.end >= 0 <==> w.jumps > 0)
    && var whole, rest := Scan(msg, start, MAX_JUMPS, MAX_TOTAL), ScanFrom(msg, w);
    && (whole.None? <==> rest.None?)
    && (rest.Some? && Reads(msg, w.off, rest.value) && Reads(msg, start, whole.value) ==>
          && LabelsOf(msg, start, whole.value) == w.labels + LabelsOf(msg, w.off, rest.value)
          && EndOf(msg, start, whole.value) == if w.end >= 0 then w.end else EndOf(msg, w.off, rest.value))
    && (if w.end >= 0 then start < w.end <= |msg| else start <= w.off)
  }

  ghost function ScanFrom(msg: Bytes, w: Walk): Option<Reading> {
    Scan(msg, w.off, MAX_JUMPS - w.jumps, MAX_TOTAL - w.total)
  }

  predicate AtLabel(msg: Bytes, w: Walk) {
    && 0 <= w.off < |msg| && 1 <= msg[w.off] <= 63 && w.off + 1 + msg[w.off] <= |msg|
    && w.total + msg[w.off] + 1 <= MAX_TOTAL
  }

  function PastLabel(msg: Bytes, w: Walk): Walk
    requires AtLabel(msg, w)
  {
    var l := msg[w.off];
    Walk(w.off + 1 + l, w.labels + [msg[w.off + 1..w.off + 1 + l]], w.end, w.jumps, w.total + l + 1)
  }

  lemma LabelStep(msg: Bytes, start: int, w: Walk)
    requires OnTheWay(msg, start, w) && AtLabel(msg, w)
    ensures OnTheWay(msg, start, PastLabel(msg, w))
  {
    var next := ScanFrom(msg, PastLabel(msg, w));
    ScanLabel(msg, w);
    if next.Some? {
      ScanSound(msg, w.off, MAX_JUMPS - w.jumps, MAX_TOTAL - w.total);
      Found(msg, start);
      LabelReading(msg, w, next.value);
    }
  }

  lemma ScanLabel(msg: Bytes, w: Walk)
    requires AtLabel(msg, w)
    ensures var next := ScanFrom(msg, PastLabel(msg, w));
            ScanFrom(msg, w) == if next.Some? then Some(Label(next.value)) else None
  {
  }

  lemma LabelReading(msg: Bytes, w: Walk, rest: Reading)
    requires AtLabel(msg, w) && Reads(msg, w.off, Label(rest))
    ensures var v := PastLabel(msg, w);
            && Reads(msg, v.off, rest) && EndOf(msg, w.off, Label(rest)) == EndOf(msg, v.off, rest)
            && w.labels + LabelsOf(msg, w.off, Label(rest)) == v.labels + LabelsOf(msg, v.off, rest)
  {
    var l := msg[w.off];
    var part := msg[w.off + 1..w.off + 1 + l];
    assert LabelsOf(msg, w.off, Label(rest)) == [part] + LabelsOf(msg, w.off + 1 + l, rest);
    Regroup(w.labels, part, LabelsOf(msg, w.off + 1 + l, rest));
  }

  lemma Regroup(a: seq<Bytes>, x: Bytes, b: seq<Bytes>)
    ensures a + ([x] + b) == a + [x] + b
  {
  }

  predicate AtPointer(msg: Bytes, w: Walk) {
    0 <= w.off && w.off + 1 < |msg| && msg[w.off] >= 192 && w.jumps < MAX_JUMPS
  }

  function PastPointer(msg: Bytes, w: Walk): Walk
    requires AtPointer(msg, w)
  {
    Walk(Target(msg, w.off), w.labels, if w.end < 0 then w.off + 2 else w.end, w.jumps + 1, w.total)
  }

  lemma PointerStep(msg: Bytes, start: int, w: Walk)
    requires OnTheWay(msg, start, w) && AtPointer(msg, w)
    ensures OnTheWay(msg, start, PastPointer(msg, w))
  {
    var next := ScanFrom(msg, PastPointer(msg, w));
    ScanPointer(msg, w);
    if next.Some? {
      ScanSound(msg, w.off, MAX_JUMPS - w.jumps, MAX_TOTAL - w.total);
      Found(msg, start);
      PointerReading(msg, w.off, next.value);
    }
  }

  lemma ScanPointer(msg: Bytes, w: Walk)
    requires AtPointer(msg, w)
    ensures var next := ScanFrom(msg, PastPointer(msg, w));
            ScanFrom(msg, w) == if next.Some? then Some(Pointer(next.value)) else None
  {
  }

  lemma PointerReading(msg: Bytes, off: int, rest: Reading)
    requires 0 <= off && off + 1 < |msg| && msg[off] >= 192 && Reads(msg, off, Pointer(rest))
    ensures Reads(msg, Target(msg, off), rest) && EndOf(msg, off, Pointer(rest)) == off + 2
    ensures LabelsOf(msg, off, Pointer(rest)) == LabelsOf(msg, Target(msg, off), rest)
  {
  }

  lemma RootStep(msg: Bytes, start: int, w: Walk)
    requires OnTheWay(msg, start, w) && 0 <= w.off < |msg| && msg[w.off] == 0
    ensures var e := if w.end < 0 then w.off + 1 else w.end;
            NameAt(msg, start, Join(w.labels), e) && start < e <= |msg|
  {
    Found(msg, start);
    var r := Scan(msg, start, MAX_JUMPS, MAX_TOTAL).value;
    assert w.labels + [] == w.labels;
    assert Acceptable(msg, start, r) && Join(w.labels) == Join(LabelsOf(msg, start, r));
  }

  // No step leads on.
  predicate Stuck(msg: Bytes, w: Walk) {
    || w.off < 0 || w.off >= |msg|
    || (msg[w.off] >= 192 && (w.off + 1 >= |msg| || w.jumps >= MAX_JUMPS))
    || 64 <= msg[w.off] < 192
    || (0 < msg[w.off] < 64 && (w.off + 1 + msg[w.off] > |msg| || w.total + msg[w.off] + 1 > MAX_TOTAL))
  }

  lemma Blocked(msg: Bytes, start: int, w: Walk)
    requires OnTheWay(msg, start, w) && Stuck(msg, w)
    ensures !SomeNameAt(msg, start)
  {
    NoName(msg, start);
  }

  /** Decodes a possibly compressed name, reading inside the message only: it succeeds exactly on the
      acceptable names, with the labels joined by dots and the offset after the name. */
  method DnsReadName(msg: Bytes, start: int) returns (r: Result<(Bytes, int)>)
    ensures r.Ok? ==> NameAt(msg, start, r.value.0, r.value.1) && start < r.value.1 <= |msg|
    ensures r.Err? ==> !SomeNameAt(msg, start)
  {
    var labels: seq<Bytes> := [];
    var off, end, jumps, total := start, -1, 0, 0;
    ghost var w := Walk(start, [], -1, 0, 0);
    SetsOut(msg, start);
    while true
      invariant OnTheWay(msg, start, w) && w == Walk(off, labels, end, jumps, total)
      invariant jumps <= MAX_JUMPS && total <= MAX_TOTAL
      decreases MAX_JUMPS - jumps, MAX_TOTAL - total
    {
      if off < 0 || off >= |msg| {
        Blocked(msg, start, w);
        return Err(Truncated);
      }
      var l: int := msg[off];
      if l == 0 {
        RootStep(msg, start, w);
        if end < 0 {
          end := off + 1;
        }
        return Ok((Join(labels), end));
      } else if l >= 192 {
        if off + 1 >= |msg| {
          Blocked(msg, start, w);
          return Err(Truncated);
        }
        if jumps + 1 > 64 {
          Blocked(msg, start, w);
          return Err(CompressionLoop);
        }
        PointerStep(msg, start, w);
        w := PastPointer(msg, w);
        if end < 0 {
          end := off + 2;
        }
        jumps := jumps + 1;
        off := Target(msg, off);
      } else if l >= 64 {
        Blocked(msg, start, w);
        return Err(BadLabelType);
      } else {
        if off + 1 + l > |msg| {
          Blocked(msg, start, w);
          return Err(Truncated);
        }
        if total + l + 1 > 255 {
          Blocked(msg, start, w);
          return Err(NameTooLong);
        }
        LabelStep(msg, start, w);
        w := PastLabel(msg, w);
        total := total + l + 1;
        labels := labels + [msg[off + 1..off + 1 + l]];
        off := off + 1 + l;
      }
    }
  }

  lemma SetsOut(msg: Bytes, start: int)
    ensures OnTheWay(msg, start, Walk(start, [], -1, 0, 0))
  {
    var whole := Scan(msg, start, MAX_JUMPS, MAX_TOTAL);
    if whole.Some? && Reads(msg, start, whole.value) {
      assert [] + LabelsOf(msg, start, whole.value) == LabelsOf(msg, start, whole.value);
    }
  }

  lemma NoName(msg: Bytes, start: int)
    requires Scan(msg, start, MAX_JUMPS, MAX_TOTAL).None?
    ensures !SomeNameAt(msg, start)
  {
    if r :| Acceptable(msg, start, r) {
      ScanComplete(msg, start, MAX_JUMPS, MAX_TOTAL, r);
    }
  }

  lemma Found(msg: Bytes, start: int)
    requires Scan(msg, start, MAX_JUMPS, MAX_TOTAL).Some?
    ensures Acceptable(msg, start, Scan(msg, start, MAX_JUMPS, MAX_TOTAL).value)
  {
    ScanSound(msg, start, MAX_JUMPS, MAX_TOTAL);
  }

  lemma NameIsUnique(msg: Bytes, off: int, name: Bytes, end: int, name': Bytes, end': int)
    requires NameAt(msg, off, name, end) && NameAt(msg, off, name', end')
    ensures name == name' && end == end'
  {
    var r :| Acceptable(msg, off, r) && name == Join(LabelsOf(msg, off, r)) && end == EndOf(msg, off, r);
    var r' :| Acceptable(msg, off, r') && name' == Join(LabelsOf(msg, off, r')) && end' == EndOf(msg, off, r');
    OneReading(msg, off, r, r');
  }

  // ---- the writer ----

  function Split(name: Bytes): (ls: seq<Bytes>)
    ensures ls != []
  {
    if DOT !in name then [name]
    else
      var k := FirstDot(name);
      [name[..k]] + Split(name[k + 1..])
  }

  function FirstDot(name: Bytes): (k: nat)
    requires DOT in name
    ensures k < |name| && name[k] == DOT && DOT !in name[..k]
  {
    if name[0] == DOT then 0 else FirstDot(name[1..]) + 1
  }

  lemma JoinTwo(l: Bytes, ls: seq<Bytes>)
    requires ls != []
    ensures Join([l] + ls) == l + [DOT] + Join(ls)
  {
    assert ([l] + ls)[1..] == ls;
  }

  lemma {:induction false} JoinSplit(name: Bytes)
    ensures Join(Split(name)) == name
    decreases |name|
  {
    if DOT in name {
      var k := FirstDot(name);
      JoinSplit(name[k + 1..]);
      JoinTwo(name[..k], Split(name[k + 1..]));
      assert name == name[..k] + [DOT] + name[k + 1..];
    }
  }

  function Trimmed(name: Bytes): Bytes {
    if name != [] && name[|name| - 1] == DOT then name[..|name| - 1] else name
  }

  // The labels of a query name; the root has none.
  function QueryLabels(name: Bytes): seq<Bytes> {
    if Trimmed(name) == [] then [] else Split(Trimmed(name))
  }

  ghost predicate Encodable(labels: seq<Bytes>) {
    LabelsFit(labels) && |Wire(labels)| <= 254
  }

  ghost predicate LabelsFit(labels: seq<Bytes>) {
    forall l :: l in labels ==> 1 <= |l| <= 63
  }

  ghost function Wire(labels: seq<Bytes>): seq<int> {
    if labels == [] then [] else [|labels[0]|] + labels[0] + Wire(labels[1..])
  }

  lemma {:induction false} WireAppend(a: seq<Bytes>, b: seq<Bytes>)
    ensures Wire(a + b) == Wire(a) + Wire(b)
  {
    if a == [] {
      assert a + b == b;
    } else {
      assert (a + b)[1..] == a[1..] + b;
      WireAppend(a[1..], b);
    }
  }

  function Hi(x: int): Octet { x / 256 % 256 }
  function Lo(x: int): Octet { x % 256 }

  // A 16-bit field.
  function Word(msg: Bytes, at: int): int
    requires 0 <= at && at + 1 < |msg|
  {
    var hi: int, lo: int := msg[at], msg[at + 1];
    hi * 256 + lo
  }

  // Asks recursively, with one question and nothing else; its type and class come last (sections 4.1.1
  // and 4.1.2 of RFC 1035).
  predicate AsksFor(msg: Bytes, id: int, qtype: int, qclass: int) {
    && |msg| >= 16
    && Word(msg, 0) == id % 0x1_0000 && Word(msg, 2) == 0x0100 && Word(msg, 4) == 1
    && Word(msg, 6) == 0 && Word(msg, 8) == 0 && Word(msg, 10) == 0
    && Word(msg, |msg| - 4) == qtype % 0x1_0000 && Word(msg, |msg| - 2) == qclass % 0x1_0000
  }

  function Header(id: int): Bytes {
    [Hi(id), Lo(id), 1, 0, 0, 1, 0, 0, 0, 0, 0, 0]
  }

  function Tail(qtype: int, qclass: int): Bytes {
    [0, Hi(qtype), Lo(qtype), Hi(qclass), Lo(qclass)]
  }

  lemma WireNext(labels: seq<Bytes>, i: nat)
    requires i < |labels|
    ensures Wire(labels[..i + 1]) == Wire(labels[..i]) + [|labels[i]|] + labels[i]
    ensures LabelsFit(labels[..i]) && 1 <= |labels[i]| <= 63 ==> LabelsFit(labels[..i + 1])
  {
    var l := labels[i];
    assert labels[..i + 1] == labels[..i] + [l];
    WireAppend(labels[..i], [l]);
    assert Wire([l]) == [|l|] + l + Wire([]);
  }

  // The header and these labels.
  ghost predicate Encoding(msg: Bytes, id: int, labels: seq<Bytes>) {
    LabelsFit(labels) && msg == Header(id) + Wire(labels)
  }

  lemma EncodesNext(msg: Bytes, id: int, labels: seq<Bytes>, i: nat, length: Octet)
    requires i < |labels| && Encoding(msg, id, labels[..i]) && 1 <= |labels[i]| <= 63 && length == |labels[i]|
    ensures Encoding(msg + [length] + labels[i], id, labels[..i + 1])
  {
    WireNext(labels, i);
    assert Header(id) + (Wire(labels[..i]) + [|labels[i]|] + labels[i]) == msg + [length] + labels[i];
  }

  lemma EncodedLength(msg: Bytes, id: int, labels: seq<Bytes>)
    requires Encoding(msg, id, labels)
    ensures |msg| - 12 <= 254 <==> Encodable(labels)
  {
  }

  method DnsEncodeQuery(id: int, name: Bytes, qtype: int, qclass: int) returns (r: Result<Bytes>)
    ensures r.Ok? <==> Encodable(QueryLabels(name))
    ensures r.Ok? ==> r.value == Header(id) + Wire(QueryLabels(name)) + Tail(qtype, qclass)
    ensures r.Ok? ==> AsksFor(r.value, id, qtype, qclass) && NameAt(r.value, 12, Trimmed(name), |r.value| - 4)
  {
    var msg := Header(id);
    var trimmed := Trimmed(name);
    assert Encoding(msg, id, QueryLabels(name)[..0]);
    if trimmed != [] {
      var labels := Split(trimmed);
      for i := 0 to |labels|
        invariant Encoding(msg, id, labels[..i])
      {
        var l := labels[i];
        if |l| == 0 || |l| > 63 {
          assert l in labels;
          return Err(BadName);
        }
        var length: Octet := |l|;
        EncodesNext(msg, id, labels, i, length);
        msg := msg + [length] + l;
      }
      assert labels[..|labels|] == labels;
    }
    assert Encoding(msg, id, QueryLabels(name));
    EncodedLength(msg, id, QueryLabels(name));
    if |msg| - 12 > 254 {
      return Err(NameTooLong);
    }
    r := Ok(msg + Tail(qtype, qclass));
    ReadsBackQuery(id, name, qtype, qclass, r.value);
  }

  lemma PartOfSlice(msg: Bytes, off: nat, w: seq<int>, i: nat, j: nat)
    requires off + |w| <= |msg| && msg[off..off + |w|] == w && i <= j <= |w|
    ensures msg[off + i..off + j] == w[i..j]
  {
    forall k | i <= k < j
      ensures msg[off + k] == w[k]
    {
      assert msg[off + k] == msg[off..off + |w|][k];
    }
  }

  // The labels stand at the offset, one behind the other, and the root label behind them.
  ghost predicate Placed(msg: Bytes, off: nat, labels: seq<Bytes>)
    decreases |labels|
  {
    if labels == [] then off < |msg| && msg[off] == 0
    else
      var n := |labels[0]|;
      off + 1 + n <= |msg| && msg[off] == n && msg[off + 1..off + 1 + n] == labels[0] &&
      Placed(msg, off + 1 + n, labels[1..])
  }

  lemma {:induction false} WireIsPlaced(msg: Bytes, off: nat, labels: seq<Bytes>)
    requires off + |Wire(labels)| < |msg|
    requires msg[off..off + |Wire(labels)|] == Wire(labels) && msg[off + |Wire(labels)|] == 0
    ensures Placed(msg, off, labels)
    decreases |labels|
  {
    if labels != [] {
      var w, n, rest := Wire(labels), |labels[0]|, Wire(labels[1..]);
      FirstPart(labels);
      PartOfSlice(msg, off, w, 0, 1);
      PartOfSlice(msg, off, w, 1, 1 + n);
      PartOfSlice(msg, off, w, 1 + n, |w|);
      assert msg[off] == msg[off..off + 1][0];
      WireIsPlaced(msg, off + 1 + n, labels[1..]);
    }
  }

  lemma FirstPart(labels: seq<Bytes>)
    requires labels != []
    ensures var w, n := Wire(labels), |labels[0]|;
            |w| == 1 + n + |Wire(labels[1..])| && w[0..1] == [n] && w[1..1 + n] == labels[0] &&
            w[1 + n..|w|] == Wire(labels[1..])
  {
  }

  lemma WireLength(labels: seq<Bytes>)
    requires labels != []
    ensures |Wire(labels)| == 1 + |labels[0]| + |Wire(labels[1..])|
  {
  }

  // The reading at an offset, with everything the reader reports of it and no pointer.
  ghost predicate Spells(msg: Bytes, off: nat, r: Reading, labels: seq<Bytes>, octets: nat, end: int) {
    Reads(msg, off, r) && LabelsOf(msg, off, r) == labels && Octets(msg, off, r) == octets &&
    EndOf(msg, off, r) == end && Jumps(r) == 0
  }

  lemma FitRest(labels: seq<Bytes>)
    requires labels != [] && LabelsFit(labels)
    ensures 1 <= |labels[0]| <= 63 && LabelsFit(labels[1..])
  {
  }

  lemma {:induction false} PlacedReads(msg: Bytes, off: nat, labels: seq<Bytes>, octets: nat) returns (r: Reading)
    requires LabelsFit(labels) && Placed(msg, off, labels) && octets == |Wire(labels)|
    ensures Spells(msg, off, r, labels, octets, off + octets + 1)
    decreases |labels|
  {
    if labels == [] {
      r := Root;
    } else {
      FitRest(labels);
      WireLength(labels);
      var l, rest := labels[0], labels[1..];
      var r' := PlacedReads(msg, off + 1 + |l|, rest, octets - 1 - |l|);
      LabelReads(msg, off, l, r', rest, octets - 1 - |l|, off + octets + 1);
      r := Label(r');
      assert labels == [l] + rest;
    }
  }

  lemma LabelReads(msg: Bytes, off: nat, l: Bytes, rest: Reading, labels: seq<Bytes>, octets: nat, end: int)
    requires 1 <= |l| <= 63 && off + 1 + |l| <= |msg| && msg[off] == |l| && msg[off + 1..off + 1 + |l|] == l
    requires Spells(msg, off + 1 + |l|, rest, labels, octets, end)
    ensures Spells(msg, off, Label(rest), [l] + labels, octets + |l| + 1, end)
  {
  }

  lemma QueryHolds(id: int, w: seq<int>, qtype: int, qclass: int, msg: Bytes)
    requires msg == Header(id) + w + Tail(qtype, qclass)
    ensures |msg| == 12 + |w| + 5 && msg[12..12 + |w|] == w && msg[12 + |w|] == 0
    ensures AsksFor(msg, id, qtype, qclass)
  {
    HalvesMake(id);
    HalvesMake(qtype);
    HalvesMake(qclass);
  }

  lemma HalvesMake(x: int)
    ensures Hi(x) as int * 256 + Lo(x) as int == x % 0x1_0000
  {
  }

  /** Reading at offset 12 what was written there gives the name back, less a final dot, and the offset
      of the question's type; the fields around it are those of a query for that type and class. */
  lemma ReadsBackQuery(id: int, name: Bytes, qtype: int, qclass: int, msg: Bytes)
    requires Encodable(QueryLabels(name)) && msg == Header(id) + Wire(QueryLabels(name)) + Tail(qtype, qclass)
    ensures NameAt(msg, 12, Trimmed(name), |msg| - 4) && AsksFor(msg, id, qtype, qclass)
  {
    var labels := QueryLabels(name);
    QueryHolds(id, Wire(labels), qtype, qclass, msg);
    WireIsPlaced(msg, 12, labels);
    var r := PlacedReads(msg, 12, labels, |Wire(labels)|);
    JoinSplit(Trimmed(name));
    assert Acceptable(msg, 12, r) && Trimmed(name) == Join(LabelsOf(msg, 12, r));
  }

  /** The reader counts the octets of a name without its root label: it takes names whose labels make up
      255 octets, 256 with the root label, where section 3.1 of RFC 1035 allows 255 in all. */
  lemma LongLabelsAreRead(labels: seq<Bytes>, msg: Bytes)
    requires LabelsFit(labels) && |Wire(labels)| <= MAX_TOTAL && msg == Wire(labels) + [0]
    ensures NameAt(msg, 0, Join(labels), |msg|)
  {
    var r := ReadsWire(labels, msg);
    assert Acceptable(msg, 0, r);
  }

  lemma ReadsWire(labels: seq<Bytes>, msg: Bytes) returns (r: Reading)
    requires LabelsFit(labels) && msg == Wire(labels) + [0]
    ensures Spells(msg, 0, r, labels, |Wire(labels)|, |msg|)
  {
    WireIsPlaced(msg, 0, labels);
    r := PlacedReads(msg, 0, labels, |Wire(labels)|);
  }

  // A label of n octets, written out.
  function Long(n: nat): Bytes {
    seq(n, _ => 97)
  }

  /** A message that shows it: three labels of 63 octets and one of 62. */
  lemma ReadsOneOctetTooMany()
    ensures exists msg: Bytes, r :: Acceptable(msg, 0, r) && Octets(msg, 0, r) + 1 == 256
  {
    var labels := [Long(63)] + ([Long(63)] + ([Long(63)] + ([Long(62)] + [])));
    WireOf(Long(62), []);
    WireOf(Long(63), [Long(62)] + []);
    WireOf(Long(63), [Long(63)] + ([Long(62)] + []));
    WireOf(Long(63), [Long(63)] + ([Long(63)] + ([Long(62)] + [])));
    var msg := Wire(labels) + [0];
    var r := ReadsWire(labels, msg);
    assert Acceptable(msg, 0, r);
  }

  // Octets, and how many.
  lemma WireOf(l: Bytes, rest: seq<Bytes>)
    requires |l| < 256 && forall x :: x in Wire(rest) ==> 0 <= x < 256
    ensures |Wire([l] + rest)| == 1 + |l| + |Wire(rest)|
    ensures forall x :: x in Wire([l] + rest) ==> 0 <= x < 256
  {
    assert ([l] + rest)[1..] == rest;
  }
}
