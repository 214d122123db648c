/** End offsets as text: what the Kafka probe remembers of an observation, and how it is read back.
    Models the building and rendering in Observe of internal/probe/kafka.go and Ends of
    internal/probe/probe.go. */
module Snapshots {
  import opened Memory
  import opened JobGate

  // ---------------------------------------------------------------- one number

  const MIN64 := -0x8000_0000_0000_0000
  const MAX64 := 0x7fff_ffff_ffff_ffff

  predicate In64(n: int) { MIN64 <= n <= MAX64 }

  predicate IsDigit(c: char) { '0' <= c <= '9' }

  function DigitOf(d: nat): (c: char)
    requires d < 10
    ensures IsDigit(c) && ValueOf(c) == d
  {
    '0' + d as char
  }

  function ValueOf(c: char): nat
    requires IsDigit(c)
  {
    c as nat - '0' as nat
  }

  function FormatNat(n: nat): (s: string)
    ensures s != "" && forall c :: c in s ==> IsDigit(c)
  {
    if n < 10 then [DigitOf(n)] else FormatNat(n / 10) + [DigitOf(n % 10)]
  }

  function FormatInt(n: int): string {
    if n < 0 then "-" + FormatNat(-n) else FormatNat(n)
  }

  function ParseNat(s: string): Option<int> {
    if s == "" then None
    else
      var last := s[|s| - 1];
      if !IsDigit(last) then None
      else if |s| == 1 then Some(ValueOf(last))
      else match ParseNat(s[..|s| - 1])
        case None => None
        case Some(high) => Some(10 * high + ValueOf(last))
  }

  /** A decimal number that fits 64 bits, with at most one sign. */
  function ParseInt(s: string): Option<int> {
    var signed := s != "" && (s[0] == '-' || s[0] == '+');
    match ParseNat(if signed then s[1..] else s)
    case None => None
    case Some(n) =>
      var value := if signed && s[0] == '-' then -n else n;
      if In64(value) then Some(value) else None
  }

  lemma {:induction false} NatRoundTrip(n: nat)
    ensures ParseNat(FormatNat(n)) == Some(n)
  {
    if n >= 10 {
      NatRoundTrip(n / 10);
      assert FormatNat(n)[..|FormatNat(n)| - 1] == FormatNat(n / 10);
    }
  }

  lemma IntRoundTrip(n: int)
    ensures ParseInt(FormatInt(n)) == if -0x8000_0000_0000_0000 <= n < 0x8000_0000_0000_0000 then Some(n) else None
  {
    var digits := FormatNat(if n < 0 then -n else n);
    NatRoundTrip(if n < 0 then -n else n);
    assert digits[0] in digits;
    if n < 0 { assert FormatInt(n)[1..] == digits; }
  }

  predicate NoComma(s: string) { ',' !in s }

  lemma FormatHasNoComma(n: int)
    ensures NoComma(FormatInt(n))
  {
    var digits := FormatNat(if n < 0 then -n else n);
    assert forall c :: c in digits ==> c != ',';
  }

  // ---------------------------------------------------------------- one topic

  /** The offsets in partition order, joined by commas. */
  function Rendered(parts: seq<int>): string {
    if parts == [] then ""
    else if |parts| == 1 then FormatInt(parts[0])
    else FormatInt(parts[0]) + "," + Rendered(parts[1..])
  }

  lemma Regroup(a: string, b: string, c: string, d: string)
    ensures a + (b + c + d) == (a + b) + c + d
  {
  }

  lemma {:induction false} RenderedOneMore(parts: seq<int>, x: int)
    requires parts != []
    ensures Rendered(parts + [x]) == Rendered(parts) + "," + FormatInt(x)
  {
    if |parts| > 1 {
      var first, rest := FormatInt(parts[0]) + ",", parts[1..];
      RenderedOneMore(rest, x);
      assert (parts + [x])[1..] == rest + [x];
      assert Rendered(parts + [x]) == first + Rendered(rest + [x]);
      Regroup(first, Rendered(rest), ",", FormatInt(x));
    }
  }

  method Render(parts: seq<int>) returns (s: string)
    ensures s == Rendered(parts)
  {
    s := "";
    var i := 0;
    while i < |parts|
      invariant 0 <= i <= |parts| && s == Rendered(parts[..i])
    {
      if i > 0 {
        RenderedOneMore(parts[..i], parts[i]);
        s := s + ",";
      }
      assert parts[..i + 1] == parts[..i] + [parts[i]];
      s := s + FormatInt(parts[i]);
      i := i + 1;
    }
    assert parts[..|parts|] == parts;
  }

  /** The pieces between commas; the empty text is one empty piece. */
  function Split(s: string): (pieces: seq<string>)
    ensures pieces != []
  {
    if s == "" then [""]
    else
      var rest := Split(s[1..]);
      if s[0] == ',' then [""] + rest else [[s[0]] + rest[0]] + rest[1..]
  }

  lemma {:induction false} SplitFirst(piece: string, rest: string)
    requires NoComma(piece)
    ensures Split(piece) == [piece]
    ensures Split(piece + "," + rest) == [piece] + Split(rest)
  {
    if piece == "" {
      assert ("" + "," + rest)[1..] == rest;
    } else {
      SplitFirst(piece[1..], rest);
      assert (piece + "," + rest)[1..] == piece[1..] + "," + rest;
      assert [piece[0]] + piece[1..] == piece;
    }
  }

  /** A piece that cannot be read counts as a missing partition. */
  function ReadBack(piece: string): int {
    match ParseInt(piece) case Some(n) => n case None => -1
  }

  function ReadAll(pieces: seq<string>): seq<int> {
    if pieces == [] then [] else [ReadBack(pieces[0])] + ReadAll(pieces[1..])
  }

  /** What an offset becomes once printed and read back. */
  function Kept(n: int): int { if In64(n) then n else -1 }

  lemma {:induction false} TopicReadBack(parts: seq<int>)
    requires parts != []
    ensures |ReadAll(Split(Rendered(parts)))| == |parts|
    ensures forall i :: 0 <= i < |parts| ==> ReadAll(Split(Rendered(parts)))[i] == Kept(parts[i])
  {
    var first := FormatInt(parts[0]);
    FormatHasNoComma(parts[0]);
    IntRoundTrip(parts[0]);
    SplitFirst(first, if |parts| == 1 then "" else Rendered(parts[1..]));
    if |parts| > 1 {
      TopicReadBack(parts[1..]);
      assert Split(Rendered(parts))[1..] == Split(Rendered(parts[1..]));
    }
  }

  predicate Printable(parts: seq<int>) {
    parts != [] && forall i :: 0 <= i < |parts| ==> In64(parts[i])
  }

  /** Printing and reading back undo each other exactly for the lists with at least one offset, all
      of 64 bits. The empty list comes back as one missing partition. */
  lemma TopicRoundTrip(parts: seq<int>)
    ensures ReadAll(Split(Rendered(parts))) == parts <==> Printable(parts)
  {
    if parts == [] {
      assert ReadAll(Split(Rendered(parts)))[0] == -1;
    } else {
      TopicReadBack(parts);
      if i :| 0 <= i < |parts| && !In64(parts[i]) {
        assert ReadAll(Split(Rendered(parts)))[i] == -1 != parts[i];
      }
    }
  }

  // ---------------------------------------------------------------- all topics

  predicate WellFormed(ends: Ends) {
    forall t :: t in ends ==> Printable(ends[t])
  }

  function SnapshotOf(ends: Ends): Snapshot {
    map t | t in ends :: Rendered(ends[t])
  }

  function EndsOf(snapshot: Snapshot): Ends {
    map t | t in snapshot :: ReadAll(Split(snapshot[t]))
  }

  lemma SnapshotRoundTrip(ends: Ends)
    ensures EndsOf(SnapshotOf(ends)) == ends <==> WellFormed(ends)
  {
    var back := EndsOf(SnapshotOf(ends));
    assert back.Keys == ends.Keys;
    forall t | t in ends
      ensures back[t] == ends[t] <==> Printable(ends[t])
    {
      TopicRoundTrip(ends[t]);
    }
    if WellFormed(ends) {
      assert back == ends;
    }
  }

  /** Two observations compare equal exactly when all their end offsets are. */
  lemma EqualSnapshotsMeanEqualEnds(a: Ends, b: Ends)
    requires WellFormed(a) && WellFormed(b)
    ensures SnapshotOf(a) == SnapshotOf(b) <==> a == b
  {
    SnapshotRoundTrip(a);
    SnapshotRoundTrip(b);
  }

  /** Reads the typed offsets back, topic by topic in any order. */
  method Ends(snapshot: Snapshot) returns (out: Ends)
    ensures out == EndsOf(snapshot)
  {
    out := map[];
    var todo := snapshot.Keys;
    while todo != {}
      invariant todo <= snapshot.Keys
      invariant out.Keys == snapshot.Keys - todo
      invariant forall t :: t in out ==> out[t] == ReadAll(Split(snapshot[t]))
      decreases |todo|
    {
      var topic :| topic in todo;
      todo := todo - {topic};
      var offsets := ReadPieces(Split(snapshot[topic]));
      out := out[topic := offsets];
    }
    assert out == EndsOf(snapshot);
  }

  lemma {:induction false} ReadAllOneMore(pieces: seq<string>, piece: string)
    ensures ReadAll(pieces + [piece]) == ReadAll(pieces) + [ReadBack(piece)]
  {
    if pieces != [] {
      ReadAllOneMore(pieces[1..], piece);
      assert (pieces + [piece])[1..] == pieces[1..] + [piece];
    }
  }

  method ReadPieces(pieces: seq<string>) returns (offsets: seq<int>)
    ensures offsets == ReadAll(pieces)
  {
    offsets := [];
    var i := 0;
    while i < |pieces|
      invariant 0 <= i <= |pieces| && offsets == ReadAll(pieces[..i])
    {
      ReadAllOneMore(pieces[..i], pieces[i]);
      assert pieces[..i + 1] == pieces[..i] + [pieces[i]];
      offsets := offsets + [ReadBack(pieces[i])];
      i := i + 1;
    }
    assert pieces[..|pieces|] == pieces;
  }

  // ---------------------------------------------------------------- from the broker's list

  /** One end offset as the broker lists it. */
  datatype Listed = Listed(topic: string, partition: nat, offset: int)

  predicate SamePlace(a: Listed, b: Listed) { a.topic == b.topic && a.partition == b.partition }

  predicate ListedOnce(listed: seq<Listed>) {
    forall i, j :: 0 <= i < j < |listed| ==> !SamePlace(listed[i], listed[j])
  }

  predicate Holds(ends: Ends, topic: string, partition: nat, offset: int) {
    topic in ends && partition < |ends[topic]| && ends[topic][partition] == offset
  }

  ghost predicate ListsAt(listed: seq<Listed>, topic: string, partition: int) {
    exists o :: o in listed && o.topic == topic && o.partition == partition
  }

  /** The lists hold what was listed, -1 where nothing was, and go no further than they must. */
  ghost predicate Collects(listed: seq<Listed>, ends: Ends) {
    && (forall o :: o in listed ==> Holds(ends, o.topic, o.partition, o.offset))
    && (forall t, p: nat :: t in ends && p < |ends[t]| && ends[t][p] != -1 ==> Listed(t, p, ends[t][p]) in listed)
    && (forall t :: t in ends ==> ends[t] != [] && ListsAt(listed, t, |ends[t]| - 1))
  }

  function Padded(parts: seq<int>, n: nat): (r: seq<int>)
    ensures |r| == if |parts| <= n then n + 1 else |parts|
    ensures parts <= r && forall i :: |parts| <= i < |r| ==> r[i] == -1
    decreases n + 1 - |parts|
  {
    if |parts| <= n then Padded(parts + [-1], n) else parts
  }

  function Placed(ends: Ends, o: Listed): Ends {
    var parts := Padded(if o.topic in ends then ends[o.topic] else [], o.partition);
    ends[o.topic := parts[o.partition := o.offset]]
  }

  lemma PlacingKeepsTight(listed: seq<Listed>, ends: Ends, o: Listed, t: string)
    requires Collects(listed, ends) && t in Placed(ends, o)
    ensures Placed(ends, o)[t] != [] && ListsAt(listed + [o], t, |Placed(ends, o)[t]| - 1)
  {
    if t in ends && |Placed(ends, o)[t]| == |ends[t]| {
      assert ListsAt(listed, t, |ends[t]| - 1);
      var x :| x in listed && x.topic == t && x.partition == |ends[t]| - 1;
      assert x in listed + [o];
    } else {
      assert o in listed + [o];
    }
  }

  lemma PlacingCollects(listed: seq<Listed>, ends: Ends, o: Listed)
    requires Collects(listed, ends) && forall x :: x in listed ==> !SamePlace(x, o)
    ensures Collects(listed + [o], Placed(ends, o))
  {
    var after := Placed(ends, o);
    assert o in listed + [o] && Listed(o.topic, o.partition, o.offset) == o;
    forall x | x in listed ensures x in listed + [o] && Holds(after, x.topic, x.partition, x.offset) {
      assert Holds(ends, x.topic, x.partition, x.offset);
    }
    forall t, p: nat | t in after && p < |after[t]| && after[t][p] != -1
      ensures Listed(t, p, after[t][p]) in listed + [o]
    {
      if t == o.topic && p == o.partition {
        assert after[t][p] == o.offset;
      } else {
        assert t in ends && p < |ends[t]| && ends[t][p] == after[t][p];
        assert Listed(t, p, ends[t][p]) in listed;
      }
    }
    forall t | t in after ensures after[t] != [] && ListsAt(listed + [o], t, |after[t]| - 1) {
      PlacingKeepsTight(listed, ends, o, t);
    }
  }

  /** Builds the lists, growing each with missing partitions as far as needed. */
  method Collect(listed: seq<Listed>) returns (ends: Ends)
    requires ListedOnce(listed)
    ensures Collects(listed, ends)
  {
    ends := map[];
    var i := 0;
    while i < |listed|
      invariant 0 <= i <= |listed| && Collects(listed[..i], ends)
    {
      PlacingCollects(listed[..i], ends, listed[i]);
      assert listed[..i + 1] == listed[..i] + [listed[i]];
      ends := Place(ends, listed[i]);
      i := i + 1;
    }
    assert listed[..|listed|] == listed;
  }

  method Place(ends: Ends, o: Listed) returns (ends': Ends)
    ensures ends' == Placed(ends, o)
  {
    var parts := if o.topic in ends then ends[o.topic] else [];
    ghost var start := parts;
    while |parts| <= o.partition
      invariant Padded(parts, o.partition) == Padded(start, o.partition)
      decreases o.partition + 1 - |parts|
    {
      parts := parts + [-1];
    }
    ends' := ends[o.topic := parts[o.partition := o.offset]];
  }

  lemma SameLengths(a: seq<Listed>, b: seq<Listed>, x: Ends, y: Ends, t: string)
    requires Collects(a, x) && Collects(b, y) && (forall o :: o in a ==> o in b) && t in x
    ensures t in y && |x[t]| <= |y[t]|
  {
    assert ListsAt(a, t, |x[t]| - 1);
    var o :| o in a && o.topic == t && o.partition == |x[t]| - 1;
    assert Holds(y, t, o.partition, o.offset);
  }

  lemma SameOffsets(a: seq<Listed>, b: seq<Listed>, x: Ends, y: Ends, t: string, p: nat)
    requires Collects(a, x) && Collects(b, y) && (forall o :: o in a <==> o in b)
    requires t in x && t in y && p < |x[t]| && p < |y[t]|
    ensures x[t][p] == y[t][p]
  {
    if x[t][p] != -1 {
      assert Listed(t, p, x[t][p]) in b;
      assert Holds(y, t, p, x[t][p]);
    }
    if y[t][p] != -1 {
      assert Listed(t, p, y[t][p]) in a;
    }
  }

  /** The order in which the broker lists its partitions makes no difference. */
  lemma OrderDoesNotMatter(a: seq<Listed>, b: seq<Listed>, x: Ends, y: Ends)
    requires Collects(a, x) && Collects(b, y) && forall o :: o in a <==> o in b
    ensures x == y
  {
    forall t | t in x || t in y
      ensures t in x && t in y && x[t] == y[t]
    {
      if t in x { SameLengths(a, b, x, y, t); }
      SameLengths(b, a, y, x, t);
      SameLengths(a, b, x, y, t);
      forall p: nat | p < |x[t]| ensures x[t][p] == y[t][p] {
        SameOffsets(a, b, x, y, t, p);
      }
    }
  }

  predicate Offsets64(listed: seq<Listed>) {
    forall o :: o in listed ==> 0 <= o.offset <= MAX64
  }

  lemma CollectedIsWellFormed(listed: seq<Listed>, ends: Ends)
    requires Collects(listed, ends) && Offsets64(listed)
    ensures WellFormed(ends)
  {
    forall t, p: nat | t in ends && p < |ends[t]| ensures In64(ends[t][p]) {
      if ends[t][p] != -1 { assert Listed(t, p, ends[t][p]) in listed; }
    }
  }

  lemma CollectedTells(listed: seq<Listed>, ends: Ends, o: Listed)
    requires Collects(listed, ends) && Offsets64(listed)
    ensures o in listed <==> o.offset >= 0 && Holds(ends, o.topic, o.partition, o.offset)
  {
    if o.offset >= 0 && Holds(ends, o.topic, o.partition, o.offset) {
      assert Listed(o.topic, o.partition, ends[o.topic][o.partition]) == o;
    }
  }

  /** Two observations have the same snapshot exactly when every partition has the same end offset
      in both, whatever the order they were listed in. */
  lemma SnapshotsTellOffsetsApart(a: seq<Listed>, b: seq<Listed>, x: Ends, y: Ends)
    requires Collects(a, x) && Collects(b, y) && Offsets64(a) && Offsets64(b)
    ensures SnapshotOf(x) == SnapshotOf(y) <==> forall o :: o in a <==> o in b
  {
    CollectedIsWellFormed(a, x);
    CollectedIsWellFormed(b, y);
    EqualSnapshotsMeanEqualEnds(x, y);
    if x == y {
      forall o ensures o in a <==> o in b {
        CollectedTells(a, x, o);
        CollectedTells(b, y, o);
      }
    }
    if forall o :: o in a <==> o in b {
      OrderDoesNotMatter(a, b, x, y);
    }
  }

  /** Kafka's end offsets only grow, and partitions and topics are only added. */
  ghost predicate Grew(a: Ends, b: Ends) {
    forall t :: t in a ==> t in b && |a[t]| <= |b[t]| && forall p :: 0 <= p < |a[t]| ==> a[t][p] <= b[t][p]
  }

  /** So a snapshot that was left is never seen again. */
  lemma GrowingOffsetsNeverReturn(x: Ends, y: Ends, z: Ends)
    requires WellFormed(x) && WellFormed(y) && WellFormed(z) && Grew(x, y) && Grew(y, z)
    requires SnapshotOf(x) == SnapshotOf(z)
    ensures SnapshotOf(y) == SnapshotOf(x)
  {
    EqualSnapshotsMeanEqualEnds(x, z);
    assert x.Keys == y.Keys;
    forall t | t in x ensures x[t] == y[t] {
    }
    assert x == y;
  }

  lemma GrewIsTransitive(x: Ends, y: Ends, z: Ends)
    requires Grew(x, y) && Grew(y, z)
    ensures Grew(x, z)
  {
  }

  /** What the text looks like: decimal numbers with commas between them. */
  lemma RenderedLooksLike()
    ensures Rendered([12, 7]) == "12,7" && Rendered([-1]) == "-1"
  {
    assert FormatNat(1) == "1" && FormatNat(7) == "7";
    assert FormatInt(12) == "12" && FormatInt(7) == "7";
    assert [12, 7][1..] == [7] && Rendered([7]) == "7";
  }

  /** A number may carry either sign, and nothing but digits may follow it. */
  lemma SignsAreRead(n: int)
    requires 0 <= n <= MAX64
    ensures ParseInt("+" + FormatNat(n)) == Some(n) && ParseInt("-" + FormatNat(n)) == Some(-n)
  {
    NatRoundTrip(n);
    assert ("+" + FormatNat(n))[1..] == FormatNat(n) && ("-" + FormatNat(n))[1..] == FormatNat(n);
  }

  lemma {:induction false} OnlyDigitsAreRead(s: string)
    ensures ParseNat(s).Some? <==> s != "" && forall c :: c in s ==> IsDigit(c)
    decreases |s|
  {
    if s != "" {
      var front, last := s[..|s| - 1], s[|s| - 1];
      assert s == front + [last] && last in s;
      OnlyDigitsAreRead(front);
    }
  }
}
