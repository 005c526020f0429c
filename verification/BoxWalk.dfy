/**
 The structure screen of one source: walk the top-level boxes of an ISO base media file by their headers only
 (ISO/IEC 14496-12, section 4.2), against a parser that has all the bytes.
 */
module BoxWalk {
  import opened Wrappers

  type Byte = b: nat | b < 256
  type Bytes = seq<Byte>

  const MOOV: Bytes := [0x6d, 0x6f, 0x6f, 0x76]
  const UUID: Bytes := [0x75, 0x75, 0x69, 0x64]
  const MOST_READS := 32

  datatype Defect = TruncatedHeader | TruncatedExtended | OutsideObject | ShortUserType

  datatype Box = Box(start: nat, header: nat, length: nat, kind: Bytes)

  datatype Parsed = Good(box: Box) | Malformed(defect: Defect)

  /** Big-endian unsigned. */
  function Number(raw: Bytes): nat {
    if raw == [] then 0 else Number(raw[..|raw| - 1]) * 256 + raw[|raw| - 1]
  }

  /**
   The box at `pos` of a complete file. Size 1 means a 64-bit size follows the type, size 0 means to the end.
   */
  function BoxAt(bytes: Bytes, pos: nat): Parsed
    requires pos < |bytes|
  {
    if |bytes| - pos < 8 then Malformed(TruncatedHeader)
    else
      var size, kind := Number(bytes[pos..pos + 4]), bytes[pos + 4..pos + 8];
      if size == 1 && |bytes| - pos < 16 then Malformed(TruncatedExtended)
      else
        var header := if size == 1 then 16 else 8;
        var length := if size == 1 then Number(bytes[pos + 8..pos + 16]) else if size == 0 then |bytes| - pos else size;
        if length < header || pos + length > |bytes| then Malformed(OutsideObject) else Good(Box(pos, header, length, kind))
  }

  datatype Verdict = Present | NoMoov | Broken(defect: Defect) | Undecided

  predicate Definite(v: Verdict) { !v.Undecided? }

  /** The verdict of a full parse from `pos`, and how many boxes it passes before it knows. */
  function Parse(bytes: Bytes, pos: nat): (r: (Verdict, nat))
    requires pos <= |bytes|
    ensures Definite(r.0)
    decreases |bytes| - pos
  {
    if pos == |bytes| then (NoMoov, 0)
    else match BoxAt(bytes, pos)
      case Malformed(defect) => (Broken(defect), 0)
      case Good(box) =>
        if box.kind == MOOV then (Present, 0)
        else var rest := Parse(bytes, pos + box.length); (rest.0, rest.1 + 1)
  }

  /** A run of well-formed boxes, end to end from `pos`. */
  predicate Layout(bytes: Bytes, pos: nat, boxes: seq<Box>)
    decreases |boxes|
  {
    boxes == []
    || (pos < |bytes| && BoxAt(bytes, pos) == Good(boxes[0]) && Layout(bytes, pos + boxes[0].length, boxes[1..]))
  }

  function EndOf(pos: nat, boxes: seq<Box>): nat {
    if boxes == [] then pos else boxes[|boxes| - 1].start + boxes[|boxes| - 1].length
  }

  predicate NoneMoov(boxes: seq<Box>) { forall i :: 0 <= i < |boxes| ==> boxes[i].kind != MOOV }

  /** What the verdict means of a list of boxes: they decide it. */
  predicate Decides(bytes: Bytes, pos: nat, boxes: seq<Box>, v: Verdict)
    requires pos <= |bytes|
  {
    Layout(bytes, pos, boxes) && EndOf(pos, boxes) <= |bytes|
    && match v
       case Present => boxes != [] && boxes[|boxes| - 1].kind == MOOV
       case NoMoov => NoneMoov(boxes) && EndOf(pos, boxes) == |bytes|
       case Broken(defect) => NoneMoov(boxes) && EndOf(pos, boxes) < |bytes| && BoxAt(bytes, EndOf(pos, boxes)) == Malformed(defect)
       case Undecided => false
  }

  /** The boxes up to the one that decides. */
  function Witness(bytes: Bytes, pos: nat): seq<Box>
    requires pos <= |bytes|
    decreases |bytes| - pos
  {
    if pos == |bytes| || BoxAt(bytes, pos).Malformed? then []
    else
      var box := BoxAt(bytes, pos).box;
      if box.kind == MOOV then [box] else [box] + Witness(bytes, pos + box.length)
  }

  lemma GoodBox(bytes: Bytes, pos: nat)
    requires pos < |bytes| && BoxAt(bytes, pos).Good?
    ensures var box := BoxAt(bytes, pos).box;
            box.start == pos && 8 <= box.header <= box.length && pos + box.length <= |bytes|
  {
  }

  lemma ParsePasses(bytes: Bytes, pos: nat, box: Box)
    requires pos < |bytes| && BoxAt(bytes, pos) == Good(box) && box.kind != MOOV
    ensures pos + box.length <= |bytes| && Parse(bytes, pos) == (Parse(bytes, pos + box.length).0, Parse(bytes, pos + box.length).1 + 1)
  {
  }

  lemma WitnessPasses(bytes: Bytes, pos: nat, box: Box)
    requires pos < |bytes| && BoxAt(bytes, pos) == Good(box)
    ensures pos + box.length <= |bytes|
    ensures Witness(bytes, pos) == if box.kind == MOOV then [box] else [box] + Witness(bytes, pos + box.length)
  {
  }

  /** One box more in front keeps what the rest decides. */
  lemma DecidesBefore(bytes: Bytes, pos: nat, box: Box, rest: seq<Box>, v: Verdict)
    requires pos < |bytes| && BoxAt(bytes, pos) == Good(box) && box.kind != MOOV && pos + box.length <= |bytes| && box.start == pos
    requires Decides(bytes, pos + box.length, rest, v)
    ensures Decides(bytes, pos, [box] + rest, v)
  {
    hide BoxAt;
    assert ([box] + rest)[1..] == rest;
    assert EndOf(pos, [box] + rest) == EndOf(pos + box.length, rest);
  }

  lemma {:induction false} ParseHasWitness(bytes: Bytes, pos: nat)
    requires pos <= |bytes|
    ensures Decides(bytes, pos, Witness(bytes, pos), Parse(bytes, pos).0)
    decreases |bytes| - pos
  {
    if pos < |bytes| && BoxAt(bytes, pos).Good? {
      var box := BoxAt(bytes, pos).box;
      GoodBox(bytes, pos);
      WitnessPasses(bytes, pos, box);
      if box.kind != MOOV {
        ParsePasses(bytes, pos, box);
        ParseHasWitness(bytes, pos + box.length);
        DecidesBefore(bytes, pos, box, Witness(bytes, pos + box.length), Parse(bytes, pos + box.length).0);
      }
    }
  }

  lemma {:induction false} WitnessDecides(bytes: Bytes, pos: nat, boxes: seq<Box>, v: Verdict)
    requires pos <= |bytes| && Decides(bytes, pos, boxes, v)
    ensures Parse(bytes, pos).0 == v
    decreases |boxes|
  {
    if boxes != [] {
      var next := pos + boxes[0].length;
      if boxes[0].kind != MOOV {
        assert EndOf(next, boxes[1..]) == EndOf(pos, boxes);
        WitnessDecides(bytes, next, boxes[1..], v);
      } else if |boxes| > 1 {
        assert v.Present?;
      }
    }
  }

  /** A verdict is right exactly when some list of boxes from the start of the file decides it. */
  lemma ParseMeans(bytes: Bytes, v: Verdict)
    ensures Parse(bytes, 0).0 == v <==> exists boxes :: Decides(bytes, 0, boxes, v)
  {
    ParseHasWitness(bytes, 0);
    forall boxes | Decides(bytes, 0, boxes, v) ensures Parse(bytes, 0).0 == v {
      WitnessDecides(bytes, 0, boxes, v);
    }
  }

  // ----- reading back what a writer wrote -----

  /** A box with a 32-bit size, with a 64-bit size, or up to the end of the file. */
  datatype Form = Short | Long | ToEnd

  datatype Written = Written(form: Form, kind: Bytes, payload: Bytes)

  /** `n` in `k` bytes, big-endian. */
  function Big(n: nat, k: nat): (raw: Bytes)
    ensures |raw| == k
  {
    if k == 0 then [] else Big(n / 256, k - 1) + [n % 256]
  }

  function Power(k: nat): nat { if k == 0 then 1 else 256 * Power(k - 1) }

  lemma {:induction false} BigReads(n: nat, k: nat)
    requires n < Power(k)
    ensures Number(Big(n, k)) == n
    decreases k
  {
    if k > 0 {
      BigReads(n / 256, k - 1);
      assert Big(n, k)[..k - 1] == Big(n / 256, k - 1);
    }
  }

  function Header(box: Written): Bytes {
    match box.form
    case Short => Big(8 + |box.payload|, 4) + box.kind
    case Long => [0, 0, 0, 1] + box.kind + Big(16 + |box.payload|, 8)
    case ToEnd => [0, 0, 0, 0] + box.kind
  }

  function Raw(box: Written): Bytes { Header(box) + box.payload }

  predicate Writable(box: Written) {
    |box.kind| == 4 && (box.form.Short? ==> 8 + |box.payload| < Power(4)) && (box.form.Long? ==> 16 + |box.payload| < Power(8))
  }

  function File(boxes: seq<Written>): Bytes {
    if boxes == [] then [] else Raw(boxes[0]) + File(boxes[1..])
  }

  lemma SmallNumbers()
    ensures Number([0, 0, 0, 0]) == 0 && Number([0, 0, 0, 1]) == 1
  {
    assert Big(0, 4) == [0, 0, 0, 0] && Big(1, 4) == [0, 0, 0, 1] by {
      assert Big(0, 0) == [] && Big(0, 1) == [0] && Big(0, 2) == [0, 0] && Big(0, 3) == [0, 0, 0];
    }
    assert Power(0) == 1 && Power(1) == 256 && Power(2) == 65536 && Power(3) == 16777216;
    BigReads(0, 4);
    BigReads(1, 4);
  }

  lemma ShortBox(bytes: Bytes, pos: nat, kind: Bytes, n: nat)
    requires pos + 8 <= |bytes| && bytes[pos + 4..pos + 8] == kind && Number(bytes[pos..pos + 4]) == n && 8 <= n && pos + n <= |bytes|
    ensures BoxAt(bytes, pos) == Good(Box(pos, 8, n, kind))
  {
  }

  lemma LongBox(bytes: Bytes, pos: nat, kind: Bytes, n: nat)
    requires pos + 16 <= |bytes| && bytes[pos + 4..pos + 8] == kind && Number(bytes[pos..pos + 4]) == 1
    requires Number(bytes[pos + 8..pos + 16]) == n && 16 <= n && pos + n <= |bytes|
    ensures BoxAt(bytes, pos) == Good(Box(pos, 16, n, kind))
  {
  }

  lemma LastBox(bytes: Bytes, pos: nat, kind: Bytes)
    requires pos + 8 <= |bytes| && bytes[pos + 4..pos + 8] == kind && Number(bytes[pos..pos + 4]) == 0
    ensures BoxAt(bytes, pos) == Good(Box(pos, 8, |bytes| - pos, kind))
  {
  }

  lemma Slices(front: Bytes, header: Bytes, rest: Bytes, lo: nat, hi: nat)
    requires lo <= hi <= |header|
    ensures (front + header + rest)[|front| + lo..|front| + hi] == header[lo..hi]
  {
  }

  /** A box written anywhere in a file, in any of the three forms, is the box that is read there. */
  lemma WrittenIsRead(front: Bytes, box: Written, rest: Bytes)
    requires Writable(box) && (box.form.ToEnd? ==> rest == [])
    ensures var bytes := front + Raw(box) + rest;
            |front| < |bytes| && BoxAt(bytes, |front|) == Good(Box(|front|, |Header(box)|, |Raw(box)|, box.kind))
  {
    hide BoxAt, Number, Big, Power;
    var header, pos, size := Header(box), |front|, |box.payload|;
    var bytes := front + header + (box.payload + rest);
    assert bytes == front + Raw(box) + rest;
    SmallNumbers();
    Slices(front, header, box.payload + rest, 0, 4);
    Slices(front, header, box.payload + rest, 4, 8);
    match box.form {
      case Short =>
        var length := Big(8 + size, 4);
        BigReads(8 + size, 4);
        assert header[0..4] == length && header[4..8] == box.kind;
        ShortBox(bytes, pos, box.kind, 8 + size);
      case Long =>
        var length, escape: Bytes := Big(16 + size, 8), [0, 0, 0, 1];
        BigReads(16 + size, 8);
        Slices(front, header, box.payload + rest, 8, 16);
        assert header[0..4] == escape && header[4..8] == box.kind && header[8..16] == length;
        LongBox(bytes, pos, box.kind, 16 + size);
      case ToEnd =>
        var escape: Bytes := [0, 0, 0, 0];
        assert header[0..4] == escape && header[4..8] == box.kind;
        LastBox(bytes, pos, box.kind);
    }
  }

  predicate HasMoov(boxes: seq<Written>) { exists i :: 0 <= i < |boxes| && boxes[i].kind == MOOV }

  /** The verdict on a file of boxes as a writer lays them out is whether one of them is the `moov` box. */
  lemma {:induction false} FileVerdict(front: Bytes, boxes: seq<Written>)
    requires forall i :: 0 <= i < |boxes| ==> Writable(boxes[i]) && (boxes[i].form.ToEnd? ==> i == |boxes| - 1)
    ensures Parse(front + File(boxes), |front|).0 == if HasMoov(boxes) then Present else NoMoov
    decreases |boxes|
  {
    hide BoxAt, Parse, HasMoov, Raw, Writable;
    var bytes, pos := front + File(boxes), |front|;
    ParseStops(bytes, pos);
    if boxes == [] {
      assert !HasMoov(boxes) by { NoMoovFirst([]); }
    } else {
      var box, rest := boxes[0], boxes[1..];
      assert bytes == front + Raw(box) + File(rest);
      WrittenIsRead(front, box, File(rest));
      NoMoovFirst(boxes);
      if box.kind != MOOV {
        ParsePasses(bytes, pos, Box(pos, |Header(box)|, |Raw(box)|, box.kind));
        RawLength(front, box);
        FileVerdict(front + Raw(box), rest);
      }
    }
  }

  lemma RawLength(front: Bytes, box: Written)
    ensures |front + Raw(box)| == |front| + |Raw(box)|
  {
  }

  lemma NoMoovFirst(boxes: seq<Written>)
    ensures HasMoov(boxes) <==> boxes != [] && (boxes[0].kind == MOOV || HasMoov(boxes[1..]))
  {
    if boxes != [] {
      var rest := boxes[1..];
      if HasMoov(boxes) && boxes[0].kind != MOOV {
        var i :| 0 <= i < |boxes| && boxes[i].kind == MOOV;
        assert rest[i - 1].kind == MOOV;
      }
      if HasMoov(rest) {
        var i :| 0 <= i < |rest| && rest[i].kind == MOOV;
        assert boxes[i + 1].kind == MOOV;
      }
    }
  }

  // ----- the extended type of `uuid` boxes -----

  /** A `uuid` box too short for its sixteen bytes of extended type. */
  predicate ShortType(box: Box) { box.kind == UUID && box.length < box.header + 16 }

  /** The verdict of a parser that also refuses such boxes. */
  function Strict(bytes: Bytes, pos: nat): Verdict
    requires pos <= |bytes|
    decreases |bytes| - pos
  {
    if pos == |bytes| then NoMoov
    else match BoxAt(bytes, pos)
      case Malformed(defect) => Broken(defect)
      case Good(box) =>
        if ShortType(box) then Broken(ShortUserType)
        else if box.kind == MOOV then Present
        else Strict(bytes, pos + box.length)
  }

  predicate NoneShort(boxes: seq<Box>) { forall i :: 0 <= i < |boxes| ==> !ShortType(boxes[i]) }

  /** The two parsers agree exactly if no box up to the deciding one is such a `uuid` box. */
  lemma {:induction false} StrictAgrees(bytes: Bytes, pos: nat)
    requires pos <= |bytes|
    ensures Strict(bytes, pos) == Parse(bytes, pos).0 <==> NoneShort(Witness(bytes, pos))
    ensures Parse(bytes, pos).0 != Broken(ShortUserType)
    decreases |bytes| - pos
  {
    hide BoxAt, NoneShort, ShortType;
    if pos < |bytes| && BoxAt(bytes, pos).Good? {
      var box := BoxAt(bytes, pos).box;
      GoodBox(bytes, pos);
      WitnessPasses(bytes, pos, box);
      if box.kind == MOOV {
        ShortAfter(box, []);
        assert [box] + [] == [box];
      } else {
        var rest := Witness(bytes, pos + box.length);
        ParsePasses(bytes, pos, box);
        StrictAgrees(bytes, pos + box.length);
        ShortAfter(box, rest);
      }
    } else {
      NoBoxes(bytes, pos);
    }
  }

  lemma NoBoxes(bytes: Bytes, pos: nat)
    requires pos == |bytes| || (pos < |bytes| && BoxAt(bytes, pos).Malformed?)
    ensures NoneShort(Witness(bytes, pos))
    ensures pos < |bytes| ==> BoxAt(bytes, pos).defect != ShortUserType
  {
  }

  lemma ShortAfter(box: Box, rest: seq<Box>)
    ensures NoneShort([]) && (NoneShort([box] + rest) <==> !ShortType(box) && NoneShort(rest))
  {
    var all := [box] + rest;
    if NoneShort(all) {
      assert all[0] == box;
      forall i | 0 <= i < |rest| ensures !ShortType(rest[i]) { assert all[i + 1] == rest[i]; }
    }
  }

  /** An empty `uuid` box before the `moov` box: the walk passes it, ISO/IEC 14496-12 section 4.2 does not. */
  lemma ShortUuidPasses()
    ensures var bytes: Bytes := [0, 0, 0, 8, 0x75, 0x75, 0x69, 0x64, 0, 0, 0, 8, 0x6d, 0x6f, 0x6f, 0x76];
            Parse(bytes, 0).0 == Present && Strict(bytes, 0) == Broken(ShortUserType)
  {
    var bytes: Bytes := [0, 0, 0, 8, 0x75, 0x75, 0x69, 0x64, 0, 0, 0, 8, 0x6d, 0x6f, 0x6f, 0x76];
    EightIsEight();
    assert bytes[0..4] == [0, 0, 0, 8] == bytes[8..12] && bytes[4..8] == UUID && bytes[12..16] == MOOV;
    assert BoxAt(bytes, 0) == Good(Box(0, 8, 8, UUID)) && BoxAt(bytes, 8) == Good(Box(8, 8, 8, MOOV));
    assert UUID[0] != MOOV[0];
    ParsePasses(bytes, 0, Box(0, 8, 8, UUID));
  }

  lemma EightIsEight()
    ensures Number([0, 0, 0, 8]) == 8
  {
    assert [0, 0, 0, 8][..3] == [0, 0, 0] && [0, 0, 0][..2] == [0, 0] && [0, 0][..1] == [0] && [0][..0] == [];
    assert Number([0]) == 0 && Number([0, 0]) == 0 && Number([0, 0, 0]) == 0;
  }

  // ----- the walk -----

  /** One ranged read of up to sixteen bytes; `Failed` covers every transport, range and size error. */
  datatype Fetch = Failed | Data(raw: Bytes, etag: nat)

  predicate Range(bytes: Bytes, pos: nat, raw: Bytes)
    requires pos < |bytes|
  {
    raw == bytes[pos..if pos + 16 <= |bytes| then pos + 16 else |bytes|]
  }

  /** The object never changes: whatever is read is its bytes, and a different ETag never appears. */
  ghost predicate Unchanging(fetch: (nat, nat) -> Fetch, bytes: Bytes) {
    forall k: nat, pos: nat :: pos < |bytes| && fetch(k, pos).Data? ==> Range(bytes, pos, fetch(k, pos).raw)
  }

  /** Every read succeeds, in time, with one ETag. */
  ghost predicate Undisturbed(fetch: (nat, nat) -> Fetch, late: nat -> bool) {
    fetch(0, 0).Data? && (forall k: nat, pos: nat :: fetch(k, pos).Data? && fetch(k, pos).etag == fetch(0, 0).etag)
    && forall k: nat :: !late(k)
  }

  predicate Increasing(positions: seq<nat>, size: nat) {
    (forall i, k :: 0 <= i < k < |positions| ==> positions[i] < positions[k]) && forall i :: 0 <= i < |positions| ==> positions[i] < size
  }

  /** What the sixteen bytes at a position tell about the box there. */
  function HeaderAt(raw: Bytes, pos: nat, size: nat): (p: Parsed)
    requires pos < size && |raw| <= 16
    ensures p.Good? ==> p.box.length >= 8 && pos + p.box.length <= size
  {
    if |raw| < 8 then Malformed(TruncatedHeader)
    else
      var length, kind := Number(raw[..4]), raw[4..8];
      if length == 1 && |raw| < 16 then Malformed(TruncatedExtended)
      else
        var header := if length == 1 then 16 else 8;
        var full := if length == 1 then Number(raw[8..16]) else if length == 0 then size - pos else length;
        if full < header || pos + full > size then Malformed(OutsideObject) else Good(Box(pos, header, full, kind))
  }

  /** A header is enough: it gives the box a parser of the whole file sees. */
  lemma HeaderIsEnough(bytes: Bytes, pos: nat, raw: Bytes)
    requires pos < |bytes| && Range(bytes, pos, raw)
    ensures |raw| <= 16 && HeaderAt(raw, pos, |bytes|) == BoxAt(bytes, pos)
  {
    if |raw| >= 8 {
      assert raw[..4] == bytes[pos..pos + 4];
      assert forall i :: 4 <= i < 8 ==> raw[i] == bytes[pos + i];
      assert raw[4..8] == bytes[pos + 4..pos + 8];
    }
    if |raw| >= 16 {
      assert raw[8..16] == bytes[pos + 8..pos + 16];
    }
  }

  lemma ParseStops(bytes: Bytes, pos: nat)
    requires pos <= |bytes|
    ensures pos == |bytes| ==> Parse(bytes, pos) == (NoMoov, 0)
    ensures pos < |bytes| && BoxAt(bytes, pos).Malformed? ==> Parse(bytes, pos) == (Broken(BoxAt(bytes, pos).defect), 0)
    ensures pos < |bytes| && BoxAt(bytes, pos).Good? && BoxAt(bytes, pos).box.kind == MOOV ==> Parse(bytes, pos) == (Present, 0)
  {
  }

  /**
   `screen`: at most 32 headers, each further on. `late(k)` is the deadline check before read `k`, and `bytes` stands
   for any object of that size: a definite verdict is the full parser's if the object does not change, and undisturbed
   the verdict is definite exactly when fewer than 32 boxes come before the one that decides.
   */
  method Screen(size: nat, fetch: (nat, nat) -> Fetch, late: nat -> bool, ghost bytes: Bytes)
    returns (verdict: Verdict, count: nat, positions: seq<nat>)
    requires |bytes| == size && forall k: nat, pos: nat :: fetch(k, pos).Data? ==> |fetch(k, pos).raw| <= 16
    ensures count == |positions| <= MOST_READS && Increasing(positions, size)
    ensures Unchanging(fetch, bytes) && Definite(verdict) ==> verdict == Parse(bytes, 0).0
    ensures Unchanging(fetch, bytes) && Undisturbed(fetch, late) ==> (Definite(verdict) <==> Parse(bytes, 0).1 < MOST_READS)
  {
    hide Parse, HeaderAt, BoxAt, Range;
    var pos: nat := 0;
    var etag: Option<nat> := None;
    count, positions := 0, [];
    while count < MOST_READS
      invariant count == |positions| <= MOST_READS && pos <= size && Increasing(positions, size)
      invariant forall i :: 0 <= i < |positions| ==> positions[i] < pos
      invariant Undisturbed(fetch, late) ==> etag == None || etag == Some(fetch(0, 0).etag)
      invariant Unchanging(fetch, bytes) ==> Parse(bytes, 0).0 == Parse(bytes, pos).0 && Parse(bytes, 0).1 == Parse(bytes, pos).1 + count
      decreases MOST_READS - count
    {
      ParseStops(bytes, pos);
      if late(count) {
        return Undecided, count, positions;
      }
      if pos >= size {
        return NoMoov, count, positions;
      }
      var got := fetch(count, pos);
      count, positions := count + 1, positions + [pos];
      if got.Failed? || (etag.Some? && etag.value != got.etag) {
        return Undecided, count, positions;
      }
      etag := Some(got.etag);
      var header := HeaderAt(got.raw, pos, size);
      if Range(bytes, pos, got.raw) {
        HeaderIsEnough(bytes, pos, got.raw);
      }
      match header {
        case Malformed(defect) => return Broken(defect), count, positions;
        case Good(box) =>
          if box.kind == MOOV {
            return Present, count, positions;
          }
          if Range(bytes, pos, got.raw) {
            ParsePasses(bytes, pos, box);
          }
          pos := pos + box.length;
      }
    }
    return Undecided, count, positions;
  }
}
