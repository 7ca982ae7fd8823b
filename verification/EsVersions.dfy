/** Sync versions: a binlog file name and a position, and the external version Elasticsearch compares. */
module EsVersions {
  import opened Wrappers

  /** A binlog coordinate, or a Kafka topic-partition with an offset as a fallback. */
  datatype Version = Version(file: string, pos: int)

  const FACTOR := 1_000_000_000_000
  const MAX_INT64 := 0x7fff_ffff_ffff_ffff

  predicate IsDigit(c: char) {
    '0' <= c <= '9'
  }

  function DigitValue(c: char): int
    requires IsDigit(c)
  {
    c as int - '0' as int
  }

  predicate AllDigits(s: string) {
    forall i :: 0 <= i < |s| ==> IsDigit(s[i])
  }

  /** The length of the longest run of digits at the end: what the pattern (\d+)$ captures. */
  function TrailingDigits(s: string): (n: nat)
    ensures n <= |s|
    ensures AllDigits(s[|s| - n..])
    ensures n < |s| ==> !IsDigit(s[|s| - n - 1])
  {
    if s == "" || !IsDigit(s[|s| - 1]) then 0
    else
      var init := s[..|s| - 1];
      var n := TrailingDigits(init);
      assert s == init + [s[|s| - 1]];
      assert s[|s| - n - 1..] == init[|init| - n..] + [s[|s| - 1]];
      assert n < |init| ==> s[|s| - (n + 1) - 1] == init[|init| - n - 1];
      n + 1
  }

  function DecimalValue(s: string): int
    requires AllDigits(s)
  {
    if s == "" then 0 else 10 * DecimalValue(s[..|s| - 1]) + DigitValue(s[|s| - 1])
  }

  /** binlogFileSeq: no digits at the end, or too many for an int64, is no sequence number. */
  function FileSeq(file: string): Option<int> {
    var n := TrailingDigits(file);
    if n == 0 then None
    else
      var number := DecimalValue(file[|file| - n..]);
      if number <= MAX_INT64 then Some(number) else None
  }

  /** A new binlog file: the base name, a dot, and the digits of its number. */
  lemma {:induction false} SeqOfNumberedFile(base: string, digits: string)
    requires AllDigits(digits) && digits != "" && DecimalValue(digits) <= MAX_INT64
    ensures FileSeq(base + "." + digits) == Some(DecimalValue(digits))
  {
    var file := base + "." + digits;
    var n := TrailingDigits(file);
    assert file[|base|] == '.';
    assert file[|file| - n..] == digits;
  }

  const KAFKA_PREFIX := "kafka:"

  predicate FromKafka(v: Version) {
    KAFKA_PREFIX <= v.file
  }

  /** externalESSyncVersion, with int64 arithmetic that never overflows once the guard has passed. */
  function External(v: Version): Option<int> {
    if FromKafka(v) then
      if v.pos < 0 || v.pos == MAX_INT64 then None else Some(v.pos + 1)
    else
      var number := FileSeq(v.file);
      if number.None? || number.value < 0 || v.pos < 0 then None
      else if number.value > (MAX_INT64 - v.pos) / FACTOR then None
      else Some(number.value * FACTOR + v.pos)
  }

  /** String comparison as Go does it, character by character. */
  predicate Above(a: string, b: string)
    decreases |a|
  {
    if a == "" then false
    else if b == "" then true
    else if a[0] != b[0] then a[0] > b[0]
    else Above(a[1..], b[1..])
  }

  predicate IsNewer(incoming: Version, current: Version) {
    if incoming.file == current.file then incoming.pos > current.pos
    else
      var a, b := FileSeq(incoming.file), FileSeq(current.file);
      if a.Some? && b.Some? && a.value != b.value then a.value > b.value
      else Above(incoming.file, current.file)
  }

  // ---------------------------------------------------------------------------------------------
  // Digits are read as decimal numbers

  function Pow10(n: nat): int {
    if n == 0 then 1 else 10 * Pow10(n - 1)
  }

  lemma {:induction false} DecimalValueBounds(s: string)
    requires AllDigits(s)
    ensures 0 <= DecimalValue(s) < Pow10(|s|)
  {
    if s != "" {
      DecimalValueBounds(s[..|s| - 1]);
    }
  }

  /** The first digit is the most significant one. */
  lemma {:induction false} FirstDigitCounts(s: string)
    requires AllDigits(s) && s != ""
    ensures DecimalValue(s) == DigitValue(s[0]) * Pow10(|s| - 1) + DecimalValue(s[1..])
  {
    if |s| == 1 {
      assert s[..0] == "" && s[1..] == "";
    } else {
      var init := s[..|s| - 1];
      FirstDigitCounts(init);
      assert s[1..][..|s| - 2] == init[1..];
      assert DecimalValue(s[1..]) == 10 * DecimalValue(init[1..]) + DigitValue(s[|s| - 1]);
    }
  }

  lemma LeadingZeroIsVoid(s: string)
    requires AllDigits(s)
    ensures AllDigits("0" + s) && DecimalValue("0" + s) == DecimalValue(s)
  {
    FirstDigitCounts("0" + s);
    assert ("0" + s)[1..] == s;
  }

  lemma LargerLeads(x: int, y: int, p: int)
    requires x > y && p > 0
    ensures x * p >= y * p + p
  {
    var d := x - y - 1;
    assert d * p >= 0;
    assert x * p == (y + 1 + d) * p == y * p + p + d * p;
  }

  lemma LeadingDecides(x: int, y: int, p: int, u: int, v: int)
    requires 0 <= u < p && 0 <= v < p
    ensures x * p + u > y * p + v <==> x > y || (x == y && u > v)
    ensures x * p + u == y * p + v <==> x == y && u == v
  {
    if x > y {
      LargerLeads(x, y, p);
    } else if x < y {
      LargerLeads(y, x, p);
    }
  }

  /** Of two numbers with equally many digits the larger is the later one in string order, and none have the same value. */
  lemma {:induction false} DecimalValueOrders(a: string, b: string)
    requires AllDigits(a) && AllDigits(b) && |a| == |b|
    ensures DecimalValue(a) > DecimalValue(b) <==> Above(a, b)
    ensures DecimalValue(a) == DecimalValue(b) <==> a == b
  {
    if a != "" {
      var p, x, y := Pow10(|a| - 1), DigitValue(a[0]), DigitValue(b[0]);
      FirstDigitCounts(a);
      FirstDigitCounts(b);
      DecimalValueBounds(a[1..]);
      DecimalValueBounds(b[1..]);
      DecimalValueOrders(a[1..], b[1..]);
      LeadingDecides(x, y, p, DecimalValue(a[1..]), DecimalValue(b[1..]));
      assert a == [a[0]] + a[1..] && b == [b[0]] + b[1..];
      assert a[0] > b[0] <==> x > y;
    }
  }

  /** Above is the order of strings by the first place where they differ. */
  lemma {:induction false} AboveIff(a: string, b: string)
    ensures Above(a, b)
      <==> exists k :: 0 <= k < |a| && k <= |b| && a[..k] == b[..k] && (k < |b| ==> a[k] > b[k])
    decreases |a|
  {
    if a != "" && b != "" {
      AboveIff(a[1..], b[1..]);
      if a[0] == b[0] {
        if Above(a[1..], b[1..]) {
          var k :| 0 <= k < |a[1..]| && k <= |b[1..]| && a[1..][..k] == b[1..][..k] && (k < |b[1..]| ==> a[1..][k] > b[1..][k]);
          assert a[..k + 1] == [a[0]] + a[1..][..k] && b[..k + 1] == [b[0]] + b[1..][..k];
          assert k + 1 < |b| ==> a[k + 1] > b[k + 1];
        }
        forall k | 0 < k < |a| && k <= |b| && a[..k] == b[..k] && (k < |b| ==> a[k] > b[k]) ensures Above(a[1..], b[1..]) {
          assert a[1..][..k - 1] == a[..k][1..] && b[1..][..k - 1] == b[..k][1..];
          assert k - 1 < |b[1..]| ==> a[1..][k - 1] > b[1..][k - 1];
        }
      } else {
        assert a[..0] == b[..0];
        forall k | 0 < k < |a| && k <= |b| ensures a[..k] != b[..k] {
          assert a[..k][0] == a[0] && b[..k][0] == b[0];
        }
      }
    } else if a != "" {
      assert a[..0] == b[..0];
    }
  }

  /**
   * Two binlog files of one base with equally many digits: the newer version is the one with the later file name, and
   * within one file the one with the larger position; so are the external versions, below 10^12.
   */
  lemma NumberedFilesOrder(base: string, a: string, b: string, p: int, q: int)
    requires AllDigits(a) && AllDigits(b) && |a| == |b| > 0
    requires DecimalValue(a) <= MAX_INT64 && DecimalValue(b) <= MAX_INT64
    ensures var v, w := Version(base + "." + a, p), Version(base + "." + b, q);
      && (IsNewer(v, w) <==> Above(a, b) || (a == b && p > q))
      && (!FromKafka(v) && !FromKafka(w) && External(v).Some? && External(w).Some? && p < 1_000_000_000_000 && q < 1_000_000_000_000 ==>
        (External(v).value > External(w).value <==> Above(a, b) || (a == b && p > q)))
  {
    var v, w := Version(base + "." + a, p), Version(base + "." + b, q);
    SeqOfNumberedFile(base, a);
    SeqOfNumberedFile(base, b);
    DecimalValueOrders(a, b);
    assert v.file == w.file <==> a == b by {
      assert v.file[|base| + 1..] == a && w.file[|base| + 1..] == b;
    }
    if !FromKafka(v) && !FromKafka(w) && External(v).Some? && External(w).Some? && p < FACTOR && q < FACTOR {
      EncodingOrders(w, v);
    }
  }

  /** The external version of a Kafka offset is the next one, and the largest offset has none. */
  lemma KafkaVersionMeans(topic: string, pos: int)
    ensures var v := Version("kafka:" + topic, pos);
      && (External(v).Some? <==> 0 <= pos && pos != 0x7fff_ffff_ffff_ffff)
      && (External(v).Some? ==> External(v).value == pos + 1)
  {
    assert KAFKA_PREFIX <= "kafka:" + topic;
  }

  /** That of a binlog version is its file number times 10^12 plus its position. */
  lemma BinlogVersionMeans(base: string, digits: string, pos: int)
    requires AllDigits(digits) && digits != "" && DecimalValue(digits) <= MAX_INT64 && !FromKafka(Version(base + "." + digits, pos))
    ensures var v := Version(base + "." + digits, pos);
      External(v).Some? ==> External(v).value == DecimalValue(digits) * 1_000_000_000_000 + pos
  {
    SeqOfNumberedFile(base, digits);
  }

  predicate IsInt64(n: int) {
    -MAX_INT64 - 1 <= n <= MAX_INT64
  }

  lemma FileSeqIsNonnegative(file: string)
    ensures FileSeq(file).Some? ==> FileSeq(file).value >= 0
  {
    DecimalValueBounds(file[|file| - TrailingDigits(file)..]);
  }

  lemma DivisionGuard(number: int, pos: int)
    requires 0 <= number && 0 <= pos <= MAX_INT64
    ensures number <= (MAX_INT64 - pos) / FACTOR <==> number * FACTOR + pos <= MAX_INT64
  {
  }

  /** The overflow guard accepts a binlog version exactly when its encoding fits into an int64. */
  lemma GuardIsExact(v: Version)
    requires !FromKafka(v) && FileSeq(v.file).Some? && 0 <= v.pos <= MAX_INT64
    ensures External(v).Some? <==> FileSeq(v.file).value * FACTOR + v.pos <= MAX_INT64
    ensures External(v).Some? ==> 0 <= External(v).value && IsInt64(External(v).value)
  {
    FileSeqIsNonnegative(v.file);
    DivisionGuard(FileSeq(v.file).value, v.pos);
    assert FileSeq(v.file).value * FACTOR >= 0;
  }

  /** A version as Canal delivers it, with a position below the factor. */
  predicate Binlog(v: Version) {
    !FromKafka(v) && External(v).Some? && v.pos < FACTOR
  }

  /** For such versions the encoding preserves and reflects the order of (file number, position). */
  lemma EncodingOrders(a: Version, b: Version)
    requires Binlog(a) && Binlog(b)
    ensures External(a).value < External(b).value <==>
      FileSeq(a.file).value < FileSeq(b.file).value
        || (FileSeq(a.file).value == FileSeq(b.file).value && a.pos < b.pos)
    ensures External(a).value == External(b).value <==> FileSeq(a.file).value == FileSeq(b.file).value && a.pos == b.pos
  {
  }

  /** The same number always comes with the same name, as in one server's binlog. */
  predicate SameName(a: Version, b: Version) {
    FileSeq(a.file) == FileSeq(b.file) ==> a.file == b.file
  }

  /** What the sync relies on: every version is accepted, and the two comparisons agree. */
  predicate Comparable(a: Version, b: Version) {
    && External(a).Some? && External(b).Some?
    && (IsNewer(a, b) <==> External(a).value > External(b).value)
    && (IsNewer(b, a) <==> External(b).value > External(a).value)
  }

  /** The version from the earlier file is behind by less than the files are apart. */
  predicate GapFits(earlier: Version, later: Version)
    requires FileSeq(earlier.file).Some? && FileSeq(later.file).Some?
  {
    earlier.pos - later.pos < (FileSeq(later.file).value - FileSeq(earlier.file).value) * FACTOR
  }

  /**
   * For all accepted binlog versions, whatever their positions, the two comparisons agree exactly if both come from
   * one file, or the positions differ by less than the file numbers do, times the factor.
   */
  lemma ComparableIff(a: Version, b: Version)
    requires !FromKafka(a) && !FromKafka(b) && External(a).Some? && External(b).Some? && SameName(a, b)
    ensures Comparable(a, b)
      <==> if FileSeq(a.file).value < FileSeq(b.file).value then GapFits(a, b)
           else if FileSeq(b.file).value < FileSeq(a.file).value then GapFits(b, a)
           else true
  {
    var m, n := FileSeq(a.file).value, FileSeq(b.file).value;
    assert (n - m) * FACTOR == n * FACTOR - m * FACTOR;
    assert (m - n) * FACTOR == m * FACTOR - n * FACTOR;
  }

  /** So it holds of the binlog versions of one server. */
  lemma BinlogsAreComparable(a: Version, b: Version)
    requires Binlog(a) && Binlog(b) && SameName(a, b)
    ensures Comparable(a, b)
  {
  }

  /** And of the fallback versions of one Kafka partition. */
  lemma OffsetsAreComparable(a: Version, b: Version)
    requires FromKafka(a) && a.file == b.file && 0 <= a.pos < MAX_INT64 && 0 <= b.pos < MAX_INT64
    ensures Comparable(a, b)
  {
  }
}
