/** A log segment as its test (log_package/internal/log/segment_test.go)
    exercises it: a store file and an index file under one base offset,
    records numbered from that base, an index of fixed-width entries with a
    byte cap, and the "maxed" policy over both files. The byte layouts of the
    store and the index are not part of this model: the width of one index
    entry and the number of store bytes one record takes are parameters. */
module Segments {
  import opened Wrappers
  import opened Api

  /** `Config.Segment`. `InitialOffset` is read by the log, not the segment. */
  datatype SegmentConfig = SegmentConfig(maxStoreBytes: nat, maxIndexBytes: nat, initialOffset: nat)

  /** What a segment's files hold: the store's size in bytes, and the value
      of each record the index points at, in offset order. */
  datatype SegmentFiles = SegmentFiles(storeBytes: nat, values: seq<seq<byte>>)

  /** One more index entry would pass the index's byte cap. */
  predicate IndexFull(entries: nat, entWidth: nat, maxIndexBytes: nat)
  {
    entries * entWidth + entWidth > maxIndexBytes
  }

  /** The index has reached its byte cap. */
  predicate IndexMaxed(entries: nat, entWidth: nat, maxIndexBytes: nat)
  {
    entries * entWidth >= maxIndexBytes
  }

  /** With a cap of `k` entries' worth of bytes, the index refuses the next
      entry, and counts as maxed, exactly once it holds `k` entries. */
  lemma IndexCapacity(entWidth: nat, k: nat, entries: nat)
    requires entWidth > 0
    ensures IndexFull(entries, entWidth, entWidth * k) <==> entries >= k
    ensures IndexMaxed(entries, entWidth, entWidth * k) <==> entries >= k
  {
    if entries >= k {
      assert entries * entWidth >= k * entWidth by {
        MulMonotone(k, entries, entWidth);
      }
    } else {
      assert entries * entWidth + entWidth <= k * entWidth by {
        MulMonotone(entries + 1, k, entWidth);
      }
    }
  }

  lemma MulMonotone(a: nat, b: nat, c: nat)
    requires a <= b
    ensures a * c <= b * c
  {
  }

  class Segment {
    const baseOffset: nat
    const config: SegmentConfig
    /** Bytes per index entry. */
    const entWidth: nat
    /** Store bytes one record takes. */
    const storeCost: Record -> nat
    var storeBytes: nat
    /** The values the index points at; the one at position i has offset
        baseOffset + i. */
    var values: seq<seq<byte>>
    var nextOffset: nat
    var closed: bool

    ghost predicate Valid()
      reads this
    {
      entWidth > 0 && nextOffset == baseOffset + |values|
    }

    function Files(): SegmentFiles
      reads this
    {
      SegmentFiles(storeBytes, values)
    }

    /** `IsMaxed`: the store or the index has reached its configured size.
        A maxed segment has a full store or an index with no room for one
        more entry; one that is not maxed has room in its store and an index
        below its cap. */
    predicate IsMaxed()
      reads this
      requires Valid()
      ensures IsMaxed() ==> storeBytes >= config.maxStoreBytes || IndexFull(|values|, entWidth, config.maxIndexBytes)
      ensures !IsMaxed() ==> storeBytes < config.maxStoreBytes
      ensures IndexMaxed(|values|, entWidth, config.maxIndexBytes) ==> IsMaxed()
    {
      storeBytes >= config.maxStoreBytes || IndexMaxed(|values|, entWidth, config.maxIndexBytes)
    }

    /** `newSegment(dir, baseOffset, c)` over the files found in the
        directory: the next offset follows the last indexed record. */
    constructor (files: SegmentFiles, baseOffset: nat, config: SegmentConfig,
                 entWidth: nat, storeCost: Record -> nat)
      requires entWidth > 0
      ensures Valid() && !closed
      ensures Files() == files && nextOffset == baseOffset + |files.values|
      ensures this.baseOffset == baseOffset && this.config == config
      ensures this.entWidth == entWidth && this.storeCost == storeCost
    {
      this.baseOffset := baseOffset;
      this.config := config;
      this.entWidth := entWidth;
      this.storeCost := storeCost;
      storeBytes := files.storeBytes;
      values := files.values;
      nextOffset := baseOffset + |files.values|;
      closed := false;
    }

    /** `Append`: the record takes the next offset and goes to the store, then
        its position goes to the index. When the index is full the store has
        already grown, but no offset is used and `io.EOF` comes back. */
    method Append(value: seq<byte>) returns (offset: nat, err: Option<Error>)
      requires Valid()
      modifies this
      ensures Valid() && closed == old(closed)
      ensures storeBytes == old(storeBytes) + storeCost(Record(value, old(nextOffset)))
      ensures IndexFull(old(|values|), entWidth, config.maxIndexBytes) ==>
                offset == 0 && err == Some(EOF) && values == old(values)
      ensures !IndexFull(old(|values|), entWidth, config.maxIndexBytes) ==>
                err == None && offset == old(nextOffset) && values == old(values) + [value]
    {
      var cur := nextOffset;
      storeBytes := storeBytes + storeCost(Record(value, cur));
      if IndexFull(|values|, entWidth, config.maxIndexBytes) {
        return 0, Some(EOF);
      }
      values := values + [value];
      nextOffset := nextOffset + 1;
      return cur, None;
    }

    /** `Read`: the record at an offset this segment holds, with the offset
        it was appended at; `io.EOF` for any other offset. */
    function Read(offset: nat): (r: Result<Record>)
      reads this
      requires Valid()
      ensures r.Ok? <==> baseOffset <= offset < nextOffset
      ensures r.Ok? ==> r.value == Record(values[offset - baseOffset], offset)
      ensures r.Err? ==> r.error == EOF
    {
      if baseOffset <= offset < nextOffset then Ok(Record(values[offset - baseOffset], offset))
      else Err(EOF)
    }

    /** `Close`: the files keep what they hold. */
    method Close() returns (err: Option<Error>)
      requires Valid()
      modifies this
      ensures Valid() && closed && err == None
      ensures Files() == old(Files()) && nextOffset == old(nextOffset)
    {
      closed := true;
      return None;
    }
  }

  /** `TestSegment`: a new segment at base 16 with an index of three
      entries starts at offset 16 and is not maxed; three appends get
      offsets 16, 17 and 18 and read back what was written; the
      fourth fails with `io.EOF` and the segment is then maxed; a segment
      reopened over the same files with a store cap of three values' length
      is maxed at once; closing it succeeds. Holds for every entry width and
      every store cost of at least the value's length. */
  method TestSegment(entWidth: nat, storeCost: Record -> nat)
    returns (firstNext: nat, initiallyMaxed: bool,
             offsets: seq<nat>, readBack: seq<seq<byte>>, fourth: Option<Error>,
             maxed: bool, reopenedMaxed: bool, closeErr: Option<Error>)
    requires entWidth > 0
    requires forall r: Record :: storeCost(r) >= |r.value|
    ensures firstNext == 16 && !initiallyMaxed
    ensures offsets == [16, 17, 18]
    ensures readBack == [HelloWorld(), HelloWorld(), HelloWorld()]
    ensures fourth == Some(EOF) && maxed && reopenedMaxed && closeErr == None
  {
    var want := HelloWorld();
    var c := SegmentConfig(1024, entWidth * 3, 0);
    var s := new Segment(SegmentFiles(0, []), 16, c, entWidth, storeCost);
    firstNext := s.nextOffset;
    IndexCapacity(entWidth, 3, 0);
    initiallyMaxed := s.IsMaxed();

    offsets, readBack := [], [];
    for i := 0 to 3
      invariant s.Valid() && s.baseOffset == 16 && s.config == c && s.entWidth == entWidth
      invariant s.storeCost == storeCost && |s.values| == i
      invariant forall k | 0 <= k < i :: s.values[k] == want
      invariant s.storeBytes >= |want| * i
      invariant |offsets| == i && forall k | 0 <= k < i :: offsets[k] == 16 + k
      invariant readBack == s.values
    {
      IndexCapacity(entWidth, 3, i);
      var off, err := s.Append(want);
      assert err == None && off == 16 + i;
      var got := s.Read(off);
      assert got.Ok? && got.value.value == want && got.value.offset == off;
      offsets, readBack := offsets + [off], readBack + [got.value.value];
    }

    IndexCapacity(entWidth, 3, 3);
    var _, err := s.Append(want);
    fourth := err;
    maxed := s.IsMaxed();

    var c2 := SegmentConfig(|want| * 3, 1024, 0);
    s := new Segment(s.Files(), 16, c2, entWidth, storeCost);
    reopenedMaxed := s.IsMaxed();

    closeErr := s.Close();
  }

  /** The bytes of "hello world". */
  function HelloWorld(): (b: seq<byte>)
    ensures |b| == 11
  {
    [104, 101, 108, 108, 111, 32, 119, 111, 114, 108, 100]
  }
}
