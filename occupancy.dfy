/**
 * The occupancy-map loaders of the point-cloud encoders (occupancyDciInit
 * in both programs, imgClassicate in the network-test one). A picture
 * stream is classified by its file name as a geometry, attribute or
 * occupancy video, and the occupancy map that belongs to it is looked up
 * under a derived name: the stream name up to its first "_GOF0_", then
 * "_GOF0_occupancy_", the map width, "x", the map height and
 * "_8bit_p420.yuv". The map is first sought at a quarter of the picture
 * size and, failing that, at half of it (the QPr5 fallback). Its frames are
 * read one after the other into frameNum / 2 buffers of w * h * 3 / 2 bytes.
 *
 * The file system is a map from file names to contents: a name opens if
 * and only if it is a key.
 */
module Occupancy {
  import BlockMetrics

  type Byte = BlockMetrics.Byte

  datatype Option<T> = None | Some(value: T)

  // ---------------------------------------------------------------------
  // Substring search (strstr and std::string::find)
  // ---------------------------------------------------------------------

  /** `pat` occurs in `s` at index j. */
  predicate MatchAt(s: string, pat: string, j: nat)
  {
    j + |pat| <= |s| && s[j..j + |pat|] == pat
  }

  ghost predicate Contains(s: string, pat: string)
  {
    exists j: nat :: MatchAt(s, pat, j)
  }

  /** The first occurrence of `pat` in `s` at or after index j. */
  function FindFrom(s: string, pat: string, j: nat): (r: Option<nat>)
    ensures r.Some? ==> j <= r.value && MatchAt(s, pat, r.value)
    ensures r.Some? ==> forall k: nat :: j <= k < r.value ==> !MatchAt(s, pat, k)
    ensures r.None? ==> forall k: nat :: j <= k ==> !MatchAt(s, pat, k)
    decreases |s| - j
  {
    if j + |pat| > |s| then None
    else if MatchAt(s, pat, j) then Some(j)
    else FindFrom(s, pat, j + 1)
  }

  /** strstr / find: the first occurrence of `pat` in `s`, if there is one. */
  function Find(s: string, pat: string): (r: Option<nat>)
    ensures r.Some? <==> Contains(s, pat)
    ensures r.Some? ==> MatchAt(s, pat, r.value) &&
                        forall k: nat :: k < r.value ==> !MatchAt(s, pat, k)
  {
    FindFrom(s, pat, 0)
  }

  const GOF0: string := "_GOF0_"
  const ATTRIBUTE_MARKER: string := "_GOF0_attribute"
  const GEOMETRY_MARKER: string := "_GOF0_geometry"
  const OCCUPANCY_MARKER: string := "_GOF0_occupancy"
  const NAME_HEAD: string := "_GOF0_occupancy_"
  const NAME_TAIL: string := "_8bit_p420.yuv"

  // ---------------------------------------------------------------------
  // Classification by name (imgClassicate)
  // ---------------------------------------------------------------------

  /**
   * OorGorA after classifying `name`: 1 for an attribute stream, 0 for a
   * geometry stream, -1 for an occupancy stream, tested in that order; a
   * name with no marker keeps the previous value.
   */
  function ClassifyName(name: string, previous: int): (r: int)
    ensures Contains(name, ATTRIBUTE_MARKER) ==> r == 1
    ensures !Contains(name, ATTRIBUTE_MARKER) && Contains(name, GEOMETRY_MARKER) ==> r == 0
    ensures (!Contains(name, ATTRIBUTE_MARKER) && !Contains(name, GEOMETRY_MARKER) &&
             Contains(name, OCCUPANCY_MARKER)) ==> r == -1
    ensures (!Contains(name, ATTRIBUTE_MARKER) && !Contains(name, GEOMETRY_MARKER) &&
             !Contains(name, OCCUPANCY_MARKER)) ==> r == previous
  {
    if Find(name, ATTRIBUTE_MARKER).Some? then 1
    else if Find(name, GEOMETRY_MARKER).Some? then 0
    else if Find(name, OCCUPANCY_MARKER).Some? then -1
    else previous
  }

  // ---------------------------------------------------------------------
  // Decimal rendering (what itoa(n, buf, 10) is used for)
  // ---------------------------------------------------------------------

  predicate IsDigit(c: char)
  {
    '0' <= c <= '9'
  }

  predicate AllDigits(s: string)
  {
    forall i :: 0 <= i < |s| ==> IsDigit(s[i])
  }

  function Digit(d: nat): (c: char)
    requires d < 10
    ensures IsDigit(c) && c as int - '0' as int == d
  {
    ('0' as int + d) as char
  }

  /** The decimal digits of n, most significant first, without leading zeros. */
  function Decimal(n: nat): (r: string)
    ensures |r| >= 1 && AllDigits(r)
    ensures r[0] == '0' ==> n == 0
    decreases n
  {
    if n < 10 then [Digit(n)] else Decimal(n / 10) + [Digit(n % 10)]
  }

  /** The value of a string of decimal digits. */
  function ParseDecimal(s: string): nat
    requires AllDigits(s)
  {
    if |s| == 0 then 0
    else 10 * ParseDecimal(s[..|s| - 1]) + (s[|s| - 1] as int - '0' as int)
  }

  /** Rendering a number and reading it back gives the number. */
  lemma {:induction false} DecimalRoundTrip(n: nat)
    ensures ParseDecimal(Decimal(n)) == n
    decreases n
  {
    if n >= 10 {
      var s := Decimal(n);
      assert s[..|s| - 1] == Decimal(n / 10);
      DecimalRoundTrip(n / 10);
    }
  }

  /** A digit string with a non-zero first digit has a positive value. */
  lemma {:induction false} LeadingDigitPositive(s: string)
    requires |s| >= 1 && AllDigits(s) && s[0] != '0'
    ensures ParseDecimal(s) >= 1
    decreases |s|
  {
    if |s| > 1 {
      var t := s[..|s| - 1];
      assert t[0] == s[0];
      LeadingDigitPositive(t);
    }
  }

  /** Reading a canonical digit string and rendering the value gives the string back. */
  lemma {:induction false} ParseRoundTrip(s: string)
    requires |s| >= 1 && AllDigits(s) && (s[0] != '0' || |s| == 1)
    ensures Decimal(ParseDecimal(s)) == s
    decreases |s|
  {
    var last := s[|s| - 1] as int - '0' as int;
    if |s| == 1 {
      assert ParseDecimal(s) == 10 * ParseDecimal([]) + last;
      assert Decimal(last) == [Digit(last)];
    } else {
      var t := s[..|s| - 1];
      assert t[0] == s[0];
      LeadingDigitPositive(t);
      ParseRoundTrip(t);
      var n := ParseDecimal(s);
      assert n == 10 * ParseDecimal(t) + last;
      assert n / 10 == ParseDecimal(t) && n % 10 == last;
      assert Decimal(n) == Decimal(n / 10) + [Digit(n % 10)];
      assert s == t + [s[|s| - 1]];
    }
  }

  // ---------------------------------------------------------------------
  // The occupancy file name
  // ---------------------------------------------------------------------

  /** name.substr(0, name.find("_GOF0_")): the whole name when there is no "_GOF0_". */
  function Prefix(name: string): (p: string)
    ensures !Contains(p, GOF0)
    ensures Contains(name, GOF0) ==> MatchAt(name, GOF0, |p|)
    ensures p <= name
  {
    match Find(name, GOF0)
    case Some(at) =>
      var p := name[..at];
      assert forall k: nat :: MatchAt(p, GOF0, k) ==> MatchAt(name, GOF0, k) by {
        forall k: nat | MatchAt(p, GOF0, k) ensures MatchAt(name, GOF0, k) {
          assert name[k..k + |GOF0|] == p[k..k + |GOF0|];
        }
      }
      p
    case None => name
  }

  /** The dimensions part of the name: "<w>x<h>". */
  function Dimensions(w: nat, h: nat): string
  {
    Decimal(w) + "x" + Decimal(h)
  }

  /** Everything after the prefix. */
  function NameSuffix(w: nat, h: nat): string
  {
    NAME_HEAD + Dimensions(w, h) + NAME_TAIL
  }

  /** The occupancy-map file name for a map of w x h samples. */
  function OccupancyName(prefix: string, w: nat, h: nat): string
  {
    prefix + NameSuffix(w, h)
  }

  /** Two digit strings joined by an 'x' can be split back apart. */
  lemma SplitAtX(a: string, b: string, c: string, d: string)
    requires AllDigits(a) && AllDigits(b) && AllDigits(c) && AllDigits(d)
    requires a + "x" + b == c + "x" + d
    ensures a == c && b == d
  {
    var s := a + "x" + b;
    assert s == c + "x" + d;
    assert s[|a|] == 'x' && forall k :: 0 <= k < |a| ==> s[k] != 'x';
    assert s[|c|] == 'x' && forall k :: 0 <= k < |c| ==> s[k] != 'x';
    assert a == s[..|a|] && c == s[..|c|];
    assert b == s[|a| + 1..] && d == s[|c| + 1..];
  }

  /**
   * The derived name determines the map dimensions: two names built from
   * the same prefix are equal only when both dimensions agree.
   */
  lemma NameDeterminesDimensions(prefix: string, w: nat, h: nat, w': nat, h': nat)
    requires OccupancyName(prefix, w, h) == OccupancyName(prefix, w', h')
    ensures w == w' && h == h'
  {
    var n := OccupancyName(prefix, w, h);
    var lo := |prefix| + |NAME_HEAD|;
    assert Dimensions(w, h) == n[lo..|n| - |NAME_TAIL|];
    assert Dimensions(w', h') == n[lo..|n| - |NAME_TAIL|];
    SplitAtX(Decimal(w), Decimal(h), Decimal(w'), Decimal(h'));
    DecimalRoundTrip(w);
    DecimalRoundTrip(w');
    DecimalRoundTrip(h);
    DecimalRoundTrip(h');
  }

  predicate NoCapitalG(s: string)
  {
    forall k :: 0 <= k < |s| ==> s[k] != 'G'
  }

  /** After its first two characters the suffix holds no 'G'. */
  lemma SuffixHasOneG(w: nat, h: nat)
    ensures var s := NameSuffix(w, h);
            |s| > |NAME_HEAD| && s[..|NAME_HEAD|] == NAME_HEAD &&
            NoCapitalG(s[|NAME_HEAD|..])
  {
    var s := NameSuffix(w, h);
    var rest := Dimensions(w, h) + NAME_TAIL;
    assert s == NAME_HEAD + rest;
    assert NoCapitalG(NAME_TAIL);
    assert s[|NAME_HEAD|..] == rest;
  }

  /** A 'G' in the suffix can only be the one of its leading "_GOF0_". */
  lemma SuffixCapitalG(w: nat, h: nat, k: nat)
    requires k < |NameSuffix(w, h)| && NameSuffix(w, h)[k] == 'G'
    ensures k == 1
  {
    var s := NameSuffix(w, h);
    SuffixHasOneG(w, h);
    if k < |NAME_HEAD| {
      assert s[k] == NAME_HEAD[k];
    }
  }

  /** A marker starting with "_GOF0_" found inside the prefix puts "_GOF0_" there. */
  lemma MatchInPrefix(prefix: string, s: string, m: string, j: nat)
    requires |m| >= 6 && m[..6] == GOF0 && j + |m| <= |prefix| && MatchAt(prefix + s, m, j)
    ensures MatchAt(prefix, GOF0, j)
  {
    assert prefix[j..j + 6] == (prefix + s)[j..j + |m|][..6];
  }

  /** A match across the seam lines the marker up with the start of the suffix. */
  lemma MatchAcrossSeam(prefix: string, s: string, m: string, j: nat)
    requires j < |prefix| < j + |m| && |s| >= 2 && MatchAt(prefix + s, m, j)
    ensures m[|prefix| - j] == s[0]
    ensures |prefix| - j + 1 < |m| ==> m[|prefix| - j + 1] == s[1]
  {
    var n := prefix + s;
    assert m[|prefix| - j] == n[|prefix|];
    if |prefix| - j + 1 < |m| {
      assert m[|prefix| - j + 1] == n[|prefix| + 1];
    }
  }

  /** A match past the prefix is a match in the suffix. */
  lemma MatchInSuffix(prefix: string, s: string, m: string, j: nat)
    requires |prefix| <= j && MatchAt(prefix + s, m, j)
    ensures MatchAt(s, m, j - |prefix|)
  {
    assert (prefix + s)[j..j + |m|] == s[j - |prefix|..j - |prefix| + |m|];
  }

  /**
   * A marker that starts with "_GOF0_" and continues with a letter other
   * than 'o' does not occur in the suffix of a derived name.
   */
  lemma SuffixLacksMarker(w: nat, h: nat, m: string)
    requires |m| > 6 && m[1] == 'G' && m[6] != 'o'
    ensures !Contains(NameSuffix(w, h), m)
  {
    var s := NameSuffix(w, h);
    SuffixHead(w, h);
    forall i: nat | MatchAt(s, m, i)
      ensures false
    {
      assert s[i..i + |m|][1] == m[1] && s[i..i + |m|][6] == m[6];
      SuffixCapitalG(w, h, i + 1);
    }
  }

  /**
   * Such a marker does not occur in a prefix without "_GOF0_" followed by
   * a suffix without the marker that starts with "_G", either.
   */
  lemma MarkerAbsent(prefix: string, s: string, m: string)
    requires !Contains(prefix, GOF0) && !Contains(s, m)
    requires |s| >= 2 && s[0] == '_' && s[1] == 'G'
    requires |m| > 6 && m[..6] == GOF0 && m[|m| - 1] != '_'
    requires forall t :: 1 <= t < |m| - 1 && m[t] == '_' ==> m[t + 1] != 'G'
    ensures !Contains(prefix + s, m)
  {
    forall j: nat | MatchAt(prefix + s, m, j)
      ensures false
    {
      if j + |m| <= |prefix| {
        MatchInPrefix(prefix, s, m, j);
      } else if j < |prefix| {
        MatchAcrossSeam(prefix, s, m, j);
      } else {
        MatchInSuffix(prefix, s, m, j);
      }
    }
  }

  /**
   * The file the loader opens is itself classified as an occupancy stream,
   * whatever the stream name it was derived from.
   */
  lemma DerivedNameIsOccupancy(name: string, w: nat, h: nat, previous: int)
    ensures ClassifyName(OccupancyName(Prefix(name), w, h), previous) == -1
  {
    var p := Prefix(name);
    var s := NameSuffix(w, h);
    var n := p + s;
    SuffixHead(w, h);
    SuffixLacksMarker(w, h, ATTRIBUTE_MARKER);
    MarkerAbsent(p, s, ATTRIBUTE_MARKER);
    SuffixLacksMarker(w, h, GEOMETRY_MARKER);
    MarkerAbsent(p, s, GEOMETRY_MARKER);
    MatchShifts(p, s, OCCUPANCY_MARKER);
  }

  /** The suffix opens with "_G" and with the occupancy marker. */
  lemma SuffixHead(w: nat, h: nat)
    ensures var s := NameSuffix(w, h);
            |s| > 6 && s[0] == '_' && s[1] == 'G' && s[6] == 'o' && MatchAt(s, OCCUPANCY_MARKER, 0)
  {
    var s := NameSuffix(w, h);
    SuffixHasOneG(w, h);
    assert s[0] == NAME_HEAD[0] && s[1] == NAME_HEAD[1] && s[6] == NAME_HEAD[6];
    assert s[..|OCCUPANCY_MARKER|] == NAME_HEAD[..|OCCUPANCY_MARKER|];
  }

  /** A match at the start of the suffix is a match right after the prefix. */
  lemma MatchShifts(prefix: string, s: string, m: string)
    requires MatchAt(s, m, 0)
    ensures MatchAt(prefix + s, m, |prefix|)
  {
    assert (prefix + s)[|prefix|..|prefix| + |m|] == s[..|m|];
  }

  // ---------------------------------------------------------------------
  // Map dimensions
  // ---------------------------------------------------------------------

  /** occupancyWidth (or Height) after the first open, or after the fallback. */
  function MapSide(side: nat, qpr5: bool): nat
  {
    if qpr5 then side / 4 * 2 else side / 4
  }

  /**
   * The map fits the picture seen through CUClassify's shrink: a picture
   * side divided by the shrink exceeds the map side by at most one sample,
   * and matches it exactly when the side is a multiple of 4.
   */
  lemma MapFitsShrunkPicture(side: nat, qpr5: bool)
    ensures MapSide(side, qpr5) <= side / BlockMetrics.Shrink(qpr5) <= MapSide(side, qpr5) + 1
    ensures side % 4 == 0 ==> side / BlockMetrics.Shrink(qpr5) == MapSide(side, qpr5)
  {
    var q := side / 4;
    assert side == 4 * q + side % 4;
    if qpr5 {
      assert side / 2 == 2 * q + (side % 4) / 2;
    }
  }

  /** Bytes of one 4:2:0 frame of w x h luma samples. */
  function FrameSize(w: nat, h: nat): nat
  {
    h * w * 3 / 2
  }

  // ---------------------------------------------------------------------
  // Reading the frames
  // ---------------------------------------------------------------------

  function Min(a: int, b: int): int
  {
    if a <= b then a else b
  }

  /** A buffer no read has touched (malloc leaves it unspecified; here zero). */
  function Zeros(n: nat): (r: seq<Byte>)
    ensures |r| == n && forall k :: 0 <= k < n ==> r[k] == 0
  {
    seq(n, _ => 0)
  }

  /**
   * The buffer of the i-th of a run of reads of `size` bytes: the read
   * starts where the previous one stopped and stops at the end of the file.
   */
  function Chunk(file: seq<Byte>, i: nat, size: nat): (r: seq<Byte>)
    ensures |r| == size
  {
    var lo := Min(i * size, |file|);
    var hi := Min(lo + size, |file|);
    file[lo..hi] + Zeros(size - (hi - lo))
  }

  /**
   * A buffer holds the file's bytes from i * size on as far as the file
   * reaches, and nothing read past its end.
   */
  lemma ChunkBytes(file: seq<Byte>, i: nat, size: nat, k: nat)
    requires k < size
    ensures i * size + k < |file| ==> Chunk(file, i, size)[k] == file[i * size + k]
    ensures i * size + k >= |file| ==> Chunk(file, i, size)[k] == 0
  {
  }

  /** All the buffers when the file opened. */
  function Frames(file: seq<Byte>, count: nat, size: nat): (r: seq<seq<Byte>>)
    ensures |r| == count
  {
    seq(count, i requires 0 <= i < count => Chunk(file, i, size))
  }

  /** All the buffers when no file opened. */
  function Unread(count: nat, size: nat): (r: seq<seq<Byte>>)
    ensures |r| == count
  {
    seq(count, _ => Zeros(size))
  }

  function Flatten(frames: seq<seq<Byte>>): seq<Byte>
  {
    if |frames| == 0 then [] else Flatten(frames[..|frames| - 1]) + frames[|frames| - 1]
  }

  lemma MulStep(i: nat, size: nat)
    ensures (i + 1) * size == i * size + size
  {
  }

  /**
   * When the file holds all the frames, the buffers are the file's first
   * count * size bytes, in order.
   */
  lemma {:induction false} FramesTileFile(file: seq<Byte>, count: nat, size: nat)
    requires count * size <= |file|
    ensures Flatten(Frames(file, count, size)) == file[..count * size]
    decreases count
  {
    if count > 0 {
      var c := count - 1;
      MulStep(c, size);
      var fs := Frames(file, count, size);
      assert fs[..c] == Frames(file, c, size);
      FramesTileFile(file, c, size);
      assert fs[c] == file[c * size..count * size];
      assert file[..c * size] + file[c * size..count * size] == file[..count * size];
    }
  }

  /** The fread loop: `count` reads of `size` bytes, one after the other. */
  method ReadFrames(file: seq<Byte>, count: nat, size: nat) returns (frames: seq<seq<Byte>>)
    ensures |frames| == count
    ensures forall i :: 0 <= i < count ==> frames[i] == Chunk(file, i, size)
  {
    frames := [];
    var pos := 0;
    var i := 0;
    while i < count
      invariant i <= count && |frames| == i
      invariant pos == Min(i * size, |file|)
      invariant forall j :: 0 <= j < i ==> frames[j] == Chunk(file, j, size)
    {
      var got := Min(size, |file| - pos);
      frames := frames + [file[pos..pos + got] + Zeros(size - got)];
      pos := pos + got;
      MulStep(i, size);
      i := i + 1;
    }
  }

  // ---------------------------------------------------------------------
  // The loader state (process-wide globals of the encoder)
  // ---------------------------------------------------------------------

  class OccupancyGlobals {
    var occupancyData: seq<seq<Byte>>
    var occupancyWidth: nat
    var occupancyHeight: nat
    var occupancyFrameNumber: nat
    var qpr5: bool
    var oorGorA: int

    /** Static storage starts zeroed; occupancyData is a null pointer (no buffers). */
    constructor ()
      ensures occupancyData == [] && occupancyWidth == 0 && occupancyHeight == 0
      ensures occupancyFrameNumber == 0 && !qpr5 && oorGorA == 0
    {
      occupancyData := [];
      occupancyWidth := 0;
      occupancyHeight := 0;
      occupancyFrameNumber := 0;
      qpr5 := false;
      oorGorA := 0;
    }

    /** imgClassicate: OorGorA follows the stream name. */
    method ImgClassicate(name: string)
      modifies this
      ensures oorGorA == ClassifyName(name, old(oorGorA))
      ensures occupancyData == old(occupancyData) && occupancyWidth == old(occupancyWidth)
      ensures occupancyHeight == old(occupancyHeight) && occupancyFrameNumber == old(occupancyFrameNumber)
      ensures qpr5 == old(qpr5)
    {
      if Find(name, ATTRIBUTE_MARKER).Some? {
        oorGorA := 1;
      } else if Find(name, GEOMETRY_MARKER).Some? {
        oorGorA := 0;
      } else if Find(name, OCCUPANCY_MARKER).Some? {
        oorGorA := -1;
      }
    }

    /**
     * The part both loaders share: the quarter-size name is tried, then the
     * half-size one, and `count` buffers are allocated and, if a file
     * opened, read.
     */
    method OpenAndRead(width: nat, height: nat, count: nat, name: string,
                       files: map<string, seq<Byte>>)
      modifies this
      ensures qpr5 <==> OccupancyName(Prefix(name), width / 4, height / 4) !in files
      ensures occupancyWidth == MapSide(width, qpr5) && occupancyHeight == MapSide(height, qpr5)
      ensures var mapName := OccupancyName(Prefix(name), occupancyWidth, occupancyHeight);
              var size := FrameSize(occupancyWidth, occupancyHeight);
              occupancyData == if mapName in files then Frames(files[mapName], count, size)
                               else Unread(count, size)
      ensures oorGorA == old(oorGorA) && occupancyFrameNumber == old(occupancyFrameNumber)
    {
      qpr5 := false;
      occupancyWidth := width / 4;
      occupancyHeight := height / 4;
      var prefix := Prefix(name);
      var occupancyName := OccupancyName(prefix, occupancyWidth, occupancyHeight);
      if occupancyName !in files {
        qpr5 := true;
        occupancyWidth := occupancyWidth * 2;
        occupancyHeight := occupancyHeight * 2;
        occupancyName := OccupancyName(prefix, occupancyWidth, occupancyHeight);
      }
      var size := FrameSize(occupancyWidth, occupancyHeight);
      if occupancyName in files {
        var frames := ReadFrames(files[occupancyName], count, size);
        assert frames == Frames(files[occupancyName], count, size);
        occupancyData := frames;
      } else {
        occupancyData := Unread(count, size);
      }
    }

    /**
     * occupancyDciInit of the network-test encoder: classify the name, then
     * load frameNum / 2 frames. occupancyFrameNumber is not kept there.
     */
    method OccupancyDciInitNetTest(width: nat, height: nat, frameNum: nat, name: string,
                                   files: map<string, seq<Byte>>)
      modifies this
      ensures oorGorA == ClassifyName(name, old(oorGorA))
      ensures occupancyFrameNumber == old(occupancyFrameNumber)
      ensures qpr5 <==> OccupancyName(Prefix(name), width / 4, height / 4) !in files
      ensures occupancyWidth == MapSide(width, qpr5) && occupancyHeight == MapSide(height, qpr5)
      ensures var mapName := OccupancyName(Prefix(name), occupancyWidth, occupancyHeight);
              var size := FrameSize(occupancyWidth, occupancyHeight);
              occupancyData == if mapName in files then Frames(files[mapName], frameNum / 2, size)
                               else Unread(frameNum / 2, size)
    {
      ImgClassicate(name);
      OpenAndRead(width, height, frameNum / 2, name, files);
    }

    /**
     * occupancyDciInit of the features encoder: as above, with the name
     * classified inline and the frame count kept in occupancyFrameNumber.
     */
    method OccupancyDciInit(width: nat, height: nat, frameNum: nat, name: string,
                            files: map<string, seq<Byte>>)
      modifies this
      ensures oorGorA == ClassifyName(name, old(oorGorA))
      ensures occupancyFrameNumber == frameNum / 2
      ensures qpr5 <==> OccupancyName(Prefix(name), width / 4, height / 4) !in files
      ensures occupancyWidth == MapSide(width, qpr5) && occupancyHeight == MapSide(height, qpr5)
      ensures var mapName := OccupancyName(Prefix(name), occupancyWidth, occupancyHeight);
              var size := FrameSize(occupancyWidth, occupancyHeight);
              occupancyData == if mapName in files then Frames(files[mapName], occupancyFrameNumber, size)
                               else Unread(occupancyFrameNumber, size)
    {
      occupancyFrameNumber := frameNum / 2;
      oorGorA := ClassifyName(name, oorGorA);
      OpenAndRead(width, height, occupancyFrameNumber, name, files);
    }
  }

  // ---------------------------------------------------------------------
  // The name as the loaders build it: itoa into a one-char buffer
  // ---------------------------------------------------------------------

  /** `new char`: the buffer both itoa calls write into holds one char. */
  const TEMP_CAPACITY: nat := 1

  /** The chars itoa(n, temp, 10) stores: the digits and a terminating NUL. */
  function ItoaBytesWritten(n: nat): (r: nat)
    ensures r >= 2
  {
    |Decimal(n)| + 1
  }

  /** Every itoa call of the loaders writes past the end of its buffer. */
  lemma TempBufferOverflows(n: nat)
    ensures ItoaBytesWritten(n) > TEMP_CAPACITY
  {
  }

  /**
   * The name when both itoa calls return the same buffer `temp` and the
   * right operand of the "+ itoa(height)" is evaluated before its left
   * operand has copied the width out of the buffer: the width is then the
   * last value rendered into `temp` when both copies are taken.
   */
  function SharedBufferName(prefix: string, w: nat, h: nat, rightOperandFirst: bool): string
  {
    prefix + NAME_HEAD + Decimal(w) + "x" + (if rightOperandFirst then Decimal(w) else Decimal(h)) + NAME_TAIL
  }

  /**
   * With that evaluation order the loader looks for a square map whatever
   * the picture: its name differs from the intended one exactly when the
   * two sides differ.
   */
  lemma SharedBufferNameIsSquare(prefix: string, w: nat, h: nat)
    ensures SharedBufferName(prefix, w, h, true) == OccupancyName(prefix, w, w)
    ensures SharedBufferName(prefix, w, h, false) == OccupancyName(prefix, w, h)
    ensures SharedBufferName(prefix, w, h, true) == OccupancyName(prefix, w, h) <==> w == h
  {
    assert SharedBufferName(prefix, w, h, true) == OccupancyName(prefix, w, w);
    assert SharedBufferName(prefix, w, h, false) == OccupancyName(prefix, w, h);
    if OccupancyName(prefix, w, w) == OccupancyName(prefix, w, h) {
      NameDeterminesDimensions(prefix, w, w, w, h);
    }
  }
}
