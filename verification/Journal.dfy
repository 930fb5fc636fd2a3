/** One run's output journal: an append-only file of lines, each entry's offset
    taken from the last line that still parses, and offset-ordered paging. */
module Journal {
  import opened Results

  /** A line as a later reader finds it: an entry, JSON whose data field is not
      base64 (with what decodes before the fault), or nothing that parses. */
  datatype Line =
    | Entry(offset: nat, channel: string, data: seq<int>, capturedAt: int)
    | BadData(offset: nat, decodedPrefix: nat)
    | Garbage

  /** The file; `terminated` says whether its last line ends in a newline. */
  datatype File = File(lines: seq<Line>, terminated: bool)

  const EMPTY_FILE := File([], true)

  /** How much of an append reached the file, and whether it failed: part of the
      line, all of it but the newline, or the whole line with the sync or the
      close failing afterwards. Only `Everything` is a success. */
  datatype Tear = Nothing | Part | AllButNewline | Unsynced | Everything

  /** The line is in the file, newline included. */
  predicate Whole(tear: Tear) {
    tear == Unsynced || tear == Everything
  }

  /** One line's effect on the running end offset. */
  function EndAfter(line: Line, offset: nat): nat {
    match line
    case Entry(o, _, data, _) => o + |data|
    case BadData(o, n) => o + n
    case Garbage => offset
  }

  function EndOffset(lines: seq<Line>): nat {
    if lines == [] then 0 else EndAfter(lines[|lines| - 1], EndOffset(lines[..|lines| - 1]))
  }

  /** Writing after an unterminated line runs on into it: a partial or whole JSON
      object followed by another on one line parses as nothing. */
  function AddLine(f: File, line: Line, tear: Tear): File {
    var shown := if tear == Part then Garbage else line;
    if tear == Nothing then f
    else if f.terminated then File(f.lines + [shown], Whole(tear))
    else File(f.lines[..if f.lines == [] then 0 else |f.lines| - 1] + [Garbage], Whole(tear))
  }

  function AppendStep(f: File, channel: string, data: seq<int>, at: int, tear: Tear): (File, Option<nat>) {
    var offset := EndOffset(f.lines);
    (AddLine(f, Entry(offset, channel, data, at), tear), if tear == Everything then Some(offset) else None)
  }

  /* ---------- The journal object ---------- */

  datatype Chunk = Chunk(offset: nat, channel: string, data: seq<int>, capturedAt: int)

  class RunJournal {
    var file: File

    constructor ()
      ensures file == EMPTY_FILE
    {
      file := EMPTY_FILE;
    }

    /** Scans the file for the end offset, then appends one line and syncs it. */
    method Append(channel: string, data: seq<int>, at: int, tear: Tear) returns (offset: Option<nat>)
      modifies this
      ensures (file, offset) == AppendStep(old(file), channel, data, at, tear)
    {
      var end := 0;
      for i := 0 to |file.lines|
        invariant file == old(file) && end == EndOffset(file.lines[..i])
      {
        assert file.lines[..i + 1][..i] == file.lines[..i];
        match file.lines[i] {
          case Entry(o, _, d, _) => end := o + |d|;
          case BadData(o, n) => end := o + n;
          case Garbage =>
        }
      }
      assert file.lines[..|file.lines|] == file.lines;
      file := AddLine(file, Entry(end, channel, data, at), tear);
      return if tear == Everything then Some(end) else None;
    }

    /** Entries from `after` on, until the next would pass a positive limit. */
    method ReadAfter(after: nat, limit: nat) returns (page: seq<Chunk>)
      ensures page == Page(Readable(file.lines), after, limit)
      ensures FullPage(From(Readable(file.lines), after), page, limit)
    {
      page := Collect(after, limit);
      PageIsFull(Readable(file.lines), after, limit);
    }

    /** The scan itself. */
    method Collect(after: nat, limit: nat) returns (page: seq<Chunk>)
      ensures page == Page(Readable(file.lines), after, limit)
    {
      page := [];
      var used: nat := 0;
      var i := 0;
      assert file.lines[0..] == file.lines;
      while i < |file.lines|
        invariant 0 <= i <= |file.lines|
        invariant page + PageFrom(Readable(file.lines[i..]), after, limit, used) ==
            Page(Readable(file.lines), after, limit)
      {
        ghost var rest := Readable(file.lines[i + 1..]);
        ReadableStep(file.lines, i);
        var line := file.lines[i];
        i := i + 1;
        match line {
          case BadData(_, _) =>
          case Garbage =>
          case Entry(offset, channel, data, at) =>
            var chunk := Chunk(offset, channel, data, at);
            assert ([chunk] + rest)[1..] == rest;
            if offset >= after {
              if limit > 0 && used + |data| > limit {
                return;
              }
              PrependMoves(page, chunk, PageFrom(rest, after, limit, used + |data|));
              page := page + [chunk];
              used := used + |data|;
            }
        }
      }
    }
  }

  lemma ReadableStep(lines: seq<Line>, i: nat)
    requires i < |lines|
    ensures Readable(lines[i..]) ==
            match lines[i]
            case Entry(o, c, d, at) => [Chunk(o, c, d, at)] + Readable(lines[i + 1..])
            case _ => Readable(lines[i + 1..])
  {
    assert lines[i..][1..] == lines[i + 1..];
  }

  lemma PrependMoves(page: seq<Chunk>, chunk: Chunk, rest: seq<Chunk>)
    ensures page + ([chunk] + rest) == (page + [chunk]) + rest
  {
  }

  /* ---------- Reading ---------- */

  /** What a reader can read, in file order. */
  function Readable(lines: seq<Line>): seq<Chunk> {
    if lines == [] then [] else Shown(lines[0]) + Readable(lines[1..])
  }

  function Shown(line: Line): seq<Chunk> {
    match line case Entry(o, c, d, at) => [Chunk(o, c, d, at)] case _ => []
  }

  function PageFrom(chunks: seq<Chunk>, after: nat, limit: nat, used: nat): seq<Chunk>
    decreases |chunks|
  {
    if chunks == [] then []
    else if chunks[0].offset < after then PageFrom(chunks[1..], after, limit, used)
    else if limit > 0 && used + |chunks[0].data| > limit then []
    else [chunks[0]] + PageFrom(chunks[1..], after, limit, used + |chunks[0].data|)
  }

  function Page(chunks: seq<Chunk>, after: nat, limit: nat): seq<Chunk> {
    PageFrom(chunks, after, limit, 0)
  }

  /** The captured bytes, in order. */
  function Bytes(chunks: seq<Chunk>): seq<int> {
    if chunks == [] then [] else Bytes(chunks[..|chunks| - 1]) + chunks[|chunks| - 1].data
  }

  /* ---------- Gap-free offsets ---------- */

  /** Each chunk begins where the bytes before it end. */
  ghost predicate GapFree(chunks: seq<Chunk>) {
    forall i :: 0 <= i < |chunks| ==> chunks[i].offset == |Bytes(chunks[..i])|
  }

  /** Files only ever written by this journal: no foreign lines, and each entry
      starts where the lines before it end. */
  predicate Fitting(lines: seq<Line>) {
    if lines == [] then true
    else
      var before, line := lines[..|lines| - 1], lines[|lines| - 1];
      Fitting(before) && (line == Garbage || (line.Entry? && line.offset == EndOffset(before)))
  }

  predicate Sound(f: File) {
    Fitting(f.lines) && (f.terminated || f.lines != [])
  }

  lemma {:induction false} ReadableConcat(a: seq<Line>, b: seq<Line>)
    ensures Readable(a + b) == Readable(a) + Readable(b)
  {
    if a == [] {
      assert a + b == b;
      Unit(Readable(b));
    } else {
      assert (a + b)[1..] == a[1..] + b && (a + b)[0] == a[0];
      ReadableConcat(a[1..], b);
      Regroup(Shown(a[0]), Readable(a[1..]), Readable(b));
    }
  }

  lemma Unit<T>(s: seq<T>)
    ensures [] + s == s && s + [] == s
  {
  }

  lemma Regroup<T>(a: seq<T>, b: seq<T>, c: seq<T>)
    ensures (a + b) + c == a + (b + c)
  {
  }

  lemma {:induction false} BytesConcat(a: seq<Chunk>, b: seq<Chunk>)
    ensures Bytes(a + b) == Bytes(a) + Bytes(b)
  {
    if b == [] {
      assert a + b == a;
      Unit(Bytes(a));
    } else {
      var init, last := b[..|b| - 1], b[|b| - 1];
      assert (a + b)[..|a + b| - 1] == a + init && (a + b)[|a + b| - 1] == last;
      BytesConcat(a, init);
      Regroup(Bytes(a), Bytes(init), last.data);
    }
  }

  lemma ChunkExtends(chunks: seq<Chunk>, chunk: Chunk)
    requires GapFree(chunks) && chunk.offset == |Bytes(chunks)|
    ensures GapFree(chunks + [chunk]) && Bytes(chunks + [chunk]) == Bytes(chunks) + chunk.data
  {
    var after := chunks + [chunk];
    assert after[..|chunks|] == chunks;
    forall i | 0 <= i < |after|
      ensures after[i].offset == |Bytes(after[..i])|
    {
      if i < |chunks| {
        assert after[..i] == chunks[..i];
      }
    }
  }

  lemma ReadableExtends(lines: seq<Line>, line: Line)
    ensures Readable(lines + [line]) == Readable(lines) + Shown(line)
  {
    ReadableConcat(lines, [line]);
    Unit(Shown(line));
    assert Readable([line]) == Shown(line) + Readable([]);
  }

  /** What can be read is gap free, and the running end offset is its length. */
  lemma {:induction false} FittingIsGapFree(lines: seq<Line>)
    requires Fitting(lines)
    ensures GapFree(Readable(lines)) && EndOffset(lines) == |Bytes(Readable(lines))|
  {
    if lines != [] {
      var before, line := lines[..|lines| - 1], lines[|lines| - 1];
      FittingIsGapFree(before);
      assert before + [line] == lines;
      ReadableExtends(before, line);
      if line.Entry? {
        ChunkExtends(Readable(before), Shown(line)[0]);
      } else {
        Unit(Readable(before));
      }
    }
  }

  /** THE offset theorem: whatever writes fail or tear, what can be read is gap
      free, and the next append starts where it ends. */
  lemma AppendKeepsSound(f: File, channel: string, data: seq<int>, at: int, tear: Tear)
    requires Sound(f)
    ensures var (f', offset) := AppendStep(f, channel, data, at, tear);
            && Sound(f') && GapFree(Readable(f'.lines)) && EndOffset(f'.lines) == |Bytes(Readable(f'.lines))|
            && (offset.Some? ==> offset.value == |Bytes(Readable(f.lines))|)
  {
    FittingIsGapFree(f.lines);
    if tear != Nothing {
      LinesAfter(f, Entry(EndOffset(f.lines), channel, data, at), tear);
    }
    FittingIsGapFree(AppendStep(f, channel, data, at, tear).0.lines);
  }

  /** An append whose sync or close fails is reported as a failure, yet onto a
      file that ends in a newline its bytes can be read back: a caller that tries
      again puts them there twice. */
  lemma UnsyncedIsReadButNotAcknowledged(f: File, channel: string, data: seq<int>, at: int)
    requires f.terminated
    ensures var (f', offset) := AppendStep(f, channel, data, at, Unsynced);
            && offset == None && f'.terminated
            && Readable(f'.lines) == Readable(f.lines) + [Chunk(EndOffset(f.lines), channel, data, at)]
            && Bytes(Readable(f'.lines)) == Bytes(Readable(f.lines)) + data
  {
    var chunk := Chunk(EndOffset(f.lines), channel, data, at);
    ReadableExtends(f.lines, Entry(EndOffset(f.lines), channel, data, at));
    assert (Readable(f.lines) + [chunk])[..|Readable(f.lines)|] == Readable(f.lines);
  }

  /** An acknowledged append can be read back exactly when the file it was added
      to ended in a newline; after a torn write the next one is lost with it. */
  lemma AcknowledgedIsReadableExactly(f: File, channel: string, data: seq<int>, at: int)
    requires Sound(f)
    ensures var (f', offset) := AppendStep(f, channel, data, at, Everything);
            && offset == Some(EndOffset(f.lines))
            && (Readable(f'.lines) == Readable(f.lines) + [Chunk(offset.value, channel, data, at)] <==> f.terminated)
  {
    var entry := Entry(EndOffset(f.lines), channel, data, at);
    if f.terminated {
      ReadableExtends(f.lines, entry);
    } else {
      var kept, last := f.lines[..|f.lines| - 1], f.lines[|f.lines| - 1];
      assert f.lines == kept + [last];
      ReadableExtends(kept, last);
      ReadableExtends(kept, Garbage);
      assert |Shown(last)| <= 1;
    }
  }

  datatype Write = Write(channel: string, data: seq<int>, at: int, tear: Tear)

  function FileAfter(writes: seq<Write>): File {
    if writes == [] then EMPTY_FILE
    else
      var w := writes[|writes| - 1];
      AppendStep(FileAfter(writes[..|writes| - 1]), w.channel, w.data, w.at, w.tear).0
  }

  lemma {:induction false} EveryFileIsSound(writes: seq<Write>)
    ensures var f := FileAfter(writes);
            Sound(f) && GapFree(Readable(f.lines)) && EndOffset(f.lines) == |Bytes(Readable(f.lines))|
  {
    if writes != [] {
      var w, before := writes[|writes| - 1], writes[..|writes| - 1];
      EveryFileIsSound(before);
      AppendKeepsSound(FileAfter(before), w.channel, w.data, w.at, w.tear);
    }
  }

  /* ---------- Paging ---------- */

  /** Where the next page starts: the last chunk's end. */
  function NextAfter(page: seq<Chunk>, after: nat): nat {
    if page == [] then after else page[|page| - 1].offset + |page[|page| - 1].data|
  }

  lemma {:induction false} OffsetsGrow(chunks: seq<Chunk>, i: nat, j: nat)
    requires GapFree(chunks) && i < j < |chunks|
    ensures chunks[i].offset + |chunks[i].data| <= chunks[j].offset
    decreases j - i
  {
    assert chunks[..j] == chunks[..j - 1] + [chunks[j - 1]];
    BytesConcat(chunks[..j - 1], [chunks[j - 1]]);
    assert Bytes([chunks[j - 1]]) == Bytes([]) + chunks[j - 1].data;
    if i < j - 1 {
      OffsetsGrow(chunks, i, j - 1);
    }
  }

  /** Chunks that begin before `after` are skipped. */
  lemma {:induction false} SkipsEarlier(chunks: seq<Chunk>, k: nat, after: nat, limit: nat)
    requires k <= |chunks|
    requires forall j :: 0 <= j < k ==> chunks[j].offset < after
    ensures Page(chunks, after, limit) == Page(chunks[k..], after, limit)
  {
    if k == 0 {
      assert chunks[0..] == chunks;
    } else {
      SkipsEarlier(chunks[1..], k - 1, after, limit);
      assert chunks[1..][k - 1..] == chunks[k..];
    }
  }

  /** From there on a page is an unbroken run, and empty only when its first chunk
      does not fit. */
  lemma {:induction false} CollectsARun(chunks: seq<Chunk>, after: nat, limit: nat, used: nat) returns (m: nat)
    requires forall j :: 0 <= j < |chunks| ==> after <= chunks[j].offset
    ensures m <= |chunks| && PageFrom(chunks, after, limit, used) == chunks[..m]
    ensures m == 0 ==> chunks == [] || (limit > 0 && used + |chunks[0].data| > limit)
    decreases |chunks|
  {
    if chunks == [] || (limit > 0 && used + |chunks[0].data| > limit) {
      m := 0;
    } else {
      m := CollectsARun(chunks[1..], after, limit, used + |chunks[0].data|);
      assert chunks[..m + 1] == [chunks[0]] + chunks[1..][..m];
      m := m + 1;
    }
  }

  /** The chunks that begin at or after an offset, in file order. */
  function From(chunks: seq<Chunk>, after: nat): seq<Chunk> {
    if chunks == [] then []
    else
      var last := chunks[|chunks| - 1];
      From(chunks[..|chunks| - 1], after) + if last.offset >= after then [last] else []
  }

  /** A run from the start of what is left, as long as the limit allows and no
      longer. */
  predicate FullPage(rest: seq<Chunk>, page: seq<Chunk>, limit: nat) {
    && page <= rest
    && (limit > 0 ==> |Bytes(page)| <= limit)
    && (page == rest || (limit > 0 && |Bytes(page)| + |rest[|page|].data| > limit))
  }

  lemma {:induction false} FromConcat(a: seq<Chunk>, b: seq<Chunk>, after: nat)
    ensures From(a + b, after) == From(a, after) + From(b, after)
  {
    if b == [] {
      assert a + b == a;
    } else {
      assert (a + b)[..|a + b| - 1] == a + b[..|b| - 1];
      FromConcat(a, b[..|b| - 1], after);
    }
  }

  /** A page that adds to `used` bytes already taken, as long as the limit allows. */
  predicate Fills(rest: seq<Chunk>, page: seq<Chunk>, limit: nat, used: nat) {
    && page <= rest
    && (limit > 0 ==> used + |Bytes(page)| <= limit)
    && (page == rest || (limit > 0 && used + |Bytes(page)| + |rest[|page|].data| > limit))
  }

  lemma FillsOneMore(first: Chunk, rest: seq<Chunk>, page: seq<Chunk>, limit: nat, used: nat)
    requires Fills(rest, page, limit, used + |first.data|)
    ensures Fills([first] + rest, [first] + page, limit, used)
  {
    BytesConcat([first], page);
    assert Bytes([first]) == Bytes([]) + first.data;
    hide Bytes;
    if page != rest {
      assert ([first] + rest)[|page| + 1] == rest[|page|];
    }
  }

  lemma FromFirst(first: Chunk, later: seq<Chunk>, after: nat)
    ensures From([first] + later, after) == (if first.offset >= after then [first] else []) + From(later, after)
  {
    FromConcat([first], later, after);
    assert [first][..0] == [] && From([], after) == [];
    assert From([first], after) == if first.offset >= after then [first] else [];
  }

  lemma {:induction false} CollectsAllItCan(chunks: seq<Chunk>, after: nat, limit: nat, used: nat)
    requires limit > 0 ==> used <= limit
    ensures Fills(From(chunks, after), PageFrom(chunks, after, limit, used), limit, used)
    decreases |chunks|
  {
    if chunks == [] {
      assert Bytes([]) == [];
    } else {
      var first, later := chunks[0], chunks[1..];
      assert chunks == [first] + later;
      FromFirst(first, later, after);
      hide From, Bytes;
      if first.offset < after {
        hide Fills;
        assert From(chunks, after) == From(later, after);
        CollectsAllItCan(later, after, limit, used);
      } else if limit == 0 || used + |first.data| <= limit {
        hide Fills;
        CollectsAllItCan(later, after, limit, used + |first.data|);
        FillsOneMore(first, From(later, after), PageFrom(later, after, limit, used + |first.data|), limit, used);
      } else {
        NothingFits(first, From(later, after), limit, used);
      }
    }
  }

  lemma NothingFits(first: Chunk, rest: seq<Chunk>, limit: nat, used: nat)
    requires used <= limit < used + |first.data| && limit > 0
    ensures Fills([first] + rest, [], limit, used)
  {
  }

  /** THE page theorem: of every file, from every offset and under every limit, a
      page is the run of chunks from the offset on, within the limit, and goes on
      to the last chunk or to where the next would pass the limit. */
  lemma PageIsFull(chunks: seq<Chunk>, after: nat, limit: nat)
    ensures FullPage(From(chunks, after), Page(chunks, after, limit), limit)
  {
    CollectsAllItCan(chunks, after, limit, 0);
  }

  /** There is only one such page. */
  lemma OneFullPage(rest: seq<Chunk>, a: seq<Chunk>, b: seq<Chunk>, limit: nat)
    requires FullPage(rest, a, limit) && FullPage(rest, b, limit) && |a| <= |b|
    ensures a == b
  {
    if |a| < |b| {
      var longer := b[..|a| + 1];
      assert longer == a + [rest[|a|]];
      BytesConcat(a, [rest[|a|]]);
      assert Bytes([rest[|a|]]) == Bytes([]) + rest[|a|].data;
      assert b == longer + b[|a| + 1..];
      BytesConcat(longer, b[|a| + 1..]);
    }
  }

  /** Where the next append begins, whatever wrote the file: at the end of the
      last line that parses, counting what decodes of a faulty one. */
  lemma {:induction false} EndsAfterLastLine(lines: seq<Line>, last: Line, noise: nat)
    ensures EndOffset(lines + [last] + seq(noise, i => Garbage)) ==
            match last
            case Entry(offset, _, data, _) => offset + |data|
            case BadData(offset, decoded) => offset + decoded
            case Garbage => EndOffset(lines)
    ensures EndOffset(seq(noise, i => Garbage)) == 0
  {
    var all := lines + [last] + seq(noise, i => Garbage);
    if noise == 0 {
      assert all == lines + [last] && all[..|lines|] == lines;
    } else {
      EndsAfterLastLine(lines, last, noise - 1);
      assert all[..|all| - 1] == lines + [last] + seq(noise - 1, i => Garbage);
      assert seq(noise, i => Garbage)[..noise - 1] == seq(noise - 1, i => Garbage);
    }
  }

  /** `after` separates the first `k` chunks from the rest. */
  ghost predicate Cut(chunks: seq<Chunk>, k: nat, after: nat) {
    && k <= |chunks|
    && forall j :: 0 <= j < |chunks| ==> (chunks[j].offset < after <==> j < k)
  }

  ghost predicate Fits(chunks: seq<Chunk>, limit: nat) {
    forall j :: 0 <= j < |chunks| ==> 0 < |chunks[j].data| && (limit > 0 ==> |chunks[j].data| <= limit)
  }

  lemma SliceOfRest(chunks: seq<Chunk>, k: nat, n: nat)
    requires k + n <= |chunks|
    ensures chunks[k..][..n] == chunks[k..k + n]
    ensures n > 0 ==> chunks[k..k + n][n - 1] == chunks[k + n - 1]
  {
  }

  /** A page asked for at a cut is the run of chunks to the next cut, which is
      where `NextAfter` points; it is empty only at the end. */
  lemma PageAdvances(chunks: seq<Chunk>, k: nat, after: nat, limit: nat)
    requires GapFree(chunks) && Fits(chunks, limit) && Cut(chunks, k, after)
    ensures var page := Page(chunks, after, limit);
            && k + |page| <= |chunks| && page == chunks[k..k + |page|]
            && (page == [] ==> k == |chunks|)
            && (page != [] ==> Cut(chunks, k + |page|, NextAfter(page, after)))
  {
    SkipsEarlier(chunks, k, after, limit);
    var n := CollectsARun(chunks[k..], after, limit, 0);
    SliceOfRest(chunks, k, n);
    if n > 0 {
      EndsAtCut(chunks, k, n, after);
    }
  }

  lemma EndsAtCut(chunks: seq<Chunk>, k: nat, n: nat, after: nat)
    requires GapFree(chunks) && 0 < n && k + n <= |chunks|
    requires forall j :: 0 <= j < |chunks| ==> 0 < |chunks[j].data|
    ensures Cut(chunks, k + n, NextAfter(chunks[k..k + n], after))
  {
    SliceOfRest(chunks, k, n);
    StartsAtCut(chunks, k + n);
  }

  /** Asking for page after page, each from where the last one ended, until one
      comes back empty. */
  ghost function AllPages(chunks: seq<Chunk>, k: nat, after: nat, limit: nat): seq<Chunk>
    requires GapFree(chunks) && Fits(chunks, limit) && Cut(chunks, k, after)
    decreases |chunks| - k
  {
    PageAdvances(chunks, k, after, limit);
    var page := Page(chunks, after, limit);
    if page == [] then [] else page + AllPages(chunks, k + |page|, NextAfter(page, after), limit)
  }

  lemma {:induction false} PagesCoverTheRest(chunks: seq<Chunk>, k: nat, after: nat, limit: nat)
    requires GapFree(chunks) && Fits(chunks, limit) && Cut(chunks, k, after)
    ensures AllPages(chunks, k, after, limit) == chunks[k..]
    decreases |chunks| - k
  {
    hide Page, NextAfter, GapFree, Fits, Cut;
    PageAdvances(chunks, k, after, limit);
    var page := Page(chunks, after, limit);
    if page != [] {
      PagesCoverTheRest(chunks, k + |page|, NextAfter(page, after), limit);
      SliceJoins(chunks, k, k + |page|);
    }
  }

  lemma SliceJoins(chunks: seq<Chunk>, k: nat, m: nat)
    requires k <= m <= |chunks|
    ensures chunks[k..m] + chunks[m..] == chunks[k..]
  {
  }

  /* ---------- What was captured and what can be read ---------- */

  /** What callers handed to the appends that succeeded. */
  function CapturedBytes(writes: seq<Write>): seq<int> {
    if writes == [] then []
    else
      var w := writes[|writes| - 1];
      CapturedBytes(writes[..|writes| - 1]) + if w.tear == Everything then w.data else []
  }

  function Tears(writes: seq<Write>): seq<Tear> {
    seq(|writes|, i requires 0 <= i < |writes| => writes[i].tear)
  }

  /** Whether the file ends in a newline. */
  predicate Ended(tears: seq<Tear>) {
    if tears == [] then true
    else
      var last := tears[|tears| - 1];
      if last == Nothing then Ended(tears[..|tears| - 1]) else Whole(last)
  }

  /** Whether its last line is an entry that lacks only the newline. */
  predicate Dangling(tears: seq<Tear>) {
    if tears == [] then false
    else
      var last, before := tears[|tears| - 1], tears[..|tears| - 1];
      if last == Nothing then Dangling(before) else last == AllButNewline && Ended(before)
  }

  /** Each success found the file ending in a newline, no append whose sync failed
      did, and the file does not end in an entry that was reported as failed. */
  predicate Faithful(tears: seq<Tear>) {
    && (forall i :: 0 <= i < |tears| && tears[i] == Everything ==> Ended(tears[..i]))
    && (forall i :: 0 <= i < |tears| && tears[i] == Unsynced ==> !Ended(tears[..i]))
    && !Dangling(tears)
  }

  /** The readable bytes of the lines that end in a newline. */
  function ClosedBytes(writes: seq<Write>): seq<int> {
    if writes == [] then []
    else
      var w, before := writes[|writes| - 1], writes[..|writes| - 1];
      ClosedBytes(before) + if Whole(w.tear) && Ended(Tears(before)) then w.data else []
  }

  /** The readable bytes of a last line that does not. */
  function OpenBytes(writes: seq<Write>): seq<int> {
    if writes == [] then []
    else
      var w, before := writes[|writes| - 1], writes[..|writes| - 1];
      if w.tear == Nothing then OpenBytes(before)
      else if w.tear == AllButNewline && Ended(Tears(before)) then w.data
      else []
  }

  lemma TearsOfPrefix(writes: seq<Write>)
    requires writes != []
    ensures Tears(writes) != [] && Tears(writes)[|writes| - 1] == writes[|writes| - 1].tear
    ensures Tears(writes)[..|writes| - 1] == Tears(writes[..|writes| - 1])
  {
  }

  lemma ReadableBytesConcat(a: seq<Line>, line: Line)
    ensures Bytes(Readable(a + [line])) == Bytes(Readable(a)) + Bytes(Readable([line]))
    ensures Bytes(Readable([line])) == if line.Entry? then line.data else []
  {
    ReadableConcat(a, [line]);
    BytesConcat(Readable(a), Readable([line]));
    Unit(Shown(line));
    assert Readable([line]) == Shown(line) + Readable([]);
    if line.Entry? {
      var chunk := Shown(line)[0];
      assert [chunk][..0] == [] && Bytes([chunk]) == Bytes([]) + chunk.data;
    }
  }

  /** What the file's closed and open lines hold, after these appends. */
  ghost predicate Holds(f: File, writes: seq<Write>) {
    && (f.terminated <==> Ended(Tears(writes)))
    && (f.terminated ==> Bytes(Readable(f.lines)) == ClosedBytes(writes) && OpenBytes(writes) == [])
    && (!f.terminated ==>
          && f.lines != [] && Bytes(Readable(f.lines[..|f.lines| - 1])) == ClosedBytes(writes)
          && Bytes(Readable([f.lines[|f.lines| - 1]])) == OpenBytes(writes))
  }

  lemma BytesAfter(before: seq<Write>, w: Write)
    ensures var writes, ended := before + [w], Ended(Tears(before));
            && Ended(Tears(writes)) == (if w.tear == Nothing then ended else Whole(w.tear))
            && ClosedBytes(writes) == ClosedBytes(before) + (if Whole(w.tear) && ended then w.data else [])
            && OpenBytes(writes) == (if w.tear == Nothing then OpenBytes(before)
                                     else if w.tear == AllButNewline && ended then w.data else [])
  {
    var writes := before + [w];
    assert writes[..|writes| - 1] == before && writes[|writes| - 1] == w;
    TearsOfPrefix(writes);
  }

  /** The lines an append leaves: those before the last, and the last. */
  lemma LinesAfter(f: File, line: Line, tear: Tear)
    requires tear != Nothing && (f.terminated || f.lines != [])
    ensures var f' := AddLine(f, line, tear);
            && f'.lines != [] && f'.terminated == Whole(tear)
            && f'.lines[..|f'.lines| - 1] == (if f.terminated then f.lines else f.lines[..|f.lines| - 1])
            && f'.lines[|f'.lines| - 1] == (if f.terminated && tear != Part then line else Garbage)
  {
  }

  lemma AppendHolds(f: File, before: seq<Write>, w: Write)
    requires Holds(f, before)
    ensures Holds(AppendStep(f, w.channel, w.data, w.at, w.tear).0, before + [w])
  {
    BytesAfter(before, w);
    Unit(ClosedBytes(before));
    hide Bytes, Readable, ClosedBytes, OpenBytes, EndOffset, Ended, Tears;
    if w.tear != Nothing {
      var line := Entry(EndOffset(f.lines), w.channel, w.data, w.at);
      var f' := AddLine(f, line, w.tear);
      LinesAfter(f, line, w.tear);
      hide AddLine;
      var kept, last := f'.lines[..|f'.lines| - 1], f'.lines[|f'.lines| - 1];
      ReadableBytesConcat(kept, last);
      Unit(Bytes(Readable(kept)));
      assert kept + [last] == f'.lines;
    }
  }

  lemma {:induction false} EveryFileHolds(writes: seq<Write>)
    ensures Holds(FileAfter(writes), writes)
  {
    if writes != [] {
      var before, w := writes[..|writes| - 1], writes[|writes| - 1];
      EveryFileHolds(before);
      AppendHolds(FileAfter(before), before, w);
      assert before + [w] == writes;
    }
  }

  lemma ReadableIsClosedThenOpen(writes: seq<Write>)
    ensures Bytes(Readable(FileAfter(writes).lines)) == ClosedBytes(writes) + OpenBytes(writes)
  {
    EveryFileHolds(writes);
    var lines := FileAfter(writes).lines;
    if !FileAfter(writes).terminated {
      assert lines == lines[..|lines| - 1] + [lines[|lines| - 1]];
      ReadableBytesConcat(lines[..|lines| - 1], lines[|lines| - 1]);
    }
  }

  lemma {:induction false} FaithfulIsCaptured(writes: seq<Write>)
    requires forall i :: 0 <= i < |writes| && writes[i].tear == Everything ==> Ended(Tears(writes)[..i])
    requires forall i :: 0 <= i < |writes| && writes[i].tear == Unsynced ==> !Ended(Tears(writes)[..i])
    ensures ClosedBytes(writes) == CapturedBytes(writes)
    ensures !Dangling(Tears(writes)) ==> OpenBytes(writes) == []
  {
    if writes != [] {
      TearsOfPrefix(writes);
      var before := writes[..|writes| - 1];
      forall i | 0 <= i < |before|
        ensures Tears(before)[..i] == Tears(writes)[..i]
      {
      }
      FaithfulIsCaptured(before);
    }
  }

  /** Appends with these outcomes whose payloads tell them apart. */
  function Marked(tears: seq<Tear>): (writes: seq<Write>)
    ensures |writes| == |tears| && Tears(writes) == tears
    ensures forall i :: 0 <= i < |tears| ==> writes[i] == Write("", [i], i, tears[i])
  {
    seq(|tears|, i requires 0 <= i < |tears| => Write("", [i], i, tears[i]))
  }

  lemma {:induction false} MarksFound(writes: seq<Write>, i: nat)
    requires forall k :: 0 <= k < |writes| ==> writes[k].data == [k]
    ensures i in CapturedBytes(writes) <==> i < |writes| && writes[i].tear == Everything
    ensures i in ClosedBytes(writes) <==> i < |writes| && Whole(writes[i].tear) && Ended(Tears(writes)[..i])
    ensures i in OpenBytes(writes) ==> i < |writes| && writes[i].tear == AllButNewline
  {
    if writes != [] {
      TearsOfPrefix(writes);
      var before := writes[..|writes| - 1];
      if i < |before| {
        assert Tears(before)[..i] == Tears(writes)[..i];
      }
      MarksFound(before, i);
    }
  }

  lemma {:induction false} DanglingIsOpen(writes: seq<Write>)
    requires Dangling(Tears(writes)) && forall k :: 0 <= k < |writes| ==> writes[k].data == [k]
    ensures OpenBytes(writes) != [] && OpenBytes(writes)[0] >= 0
  {
    TearsOfPrefix(writes);
    if writes[|writes| - 1].tear == Nothing {
      DanglingIsOpen(writes[..|writes| - 1]);
    }
  }

  /** Whatever was handed to appends with these outcomes, the readable bytes are
      those of the successes. */
  ghost predicate KeepsCaptured(tears: seq<Tear>) {
    forall writes :: Tears(writes) == tears ==> Bytes(Readable(FileAfter(writes).lines)) == CapturedBytes(writes)
  }

  lemma MemberOfSum(x: int, a: seq<int>, b: seq<int>, sum: seq<int>)
    requires a + b == sum
    ensures x in sum <==> x in a || x in b
  {
    assert x in a + b <==> x in a || x in b;
  }

  /** What a mark's presence says of its append. */
  lemma MarkIsKept(writes: seq<Write>, i: nat)
    requires forall k :: 0 <= k < |writes| ==> writes[k].data == [k]
    requires ClosedBytes(writes) + OpenBytes(writes) == CapturedBytes(writes) && i < |writes|
    ensures writes[i].tear == Everything ==> Ended(Tears(writes)[..i])
    ensures writes[i].tear == Unsynced ==> !Ended(Tears(writes)[..i])
  {
    MarksFound(writes, i);
    MemberOfSum(i, ClosedBytes(writes), OpenBytes(writes), CapturedBytes(writes));
  }

  lemma NothingDangles(writes: seq<Write>)
    requires forall k :: 0 <= k < |writes| ==> writes[k].data == [k]
    requires ClosedBytes(writes) + OpenBytes(writes) == CapturedBytes(writes)
    ensures !Dangling(Tears(writes))
  {
    if Dangling(Tears(writes)) {
      DanglingIsOpen(writes);
      var i := OpenBytes(writes)[0];
      MarksFound(writes, i);
      MemberOfSum(i, ClosedBytes(writes), OpenBytes(writes), CapturedBytes(writes));
    }
  }

  lemma UnfaithfulLoses(tears: seq<Tear>)
    requires KeepsCaptured(tears)
    ensures Faithful(tears)
  {
    hide ClosedBytes, OpenBytes, CapturedBytes, Bytes, Readable, FileAfter;
    var writes := Marked(tears);
    assert Bytes(Readable(FileAfter(writes).lines)) == CapturedBytes(writes);
    ReadableIsClosedThenOpen(writes);
    forall i: nat | i < |tears|
      ensures tears[i] == Everything ==> Ended(tears[..i])
      ensures tears[i] == Unsynced ==> !Ended(tears[..i])
    {
      MarkIsKept(writes, i);
    }
    NothingDangles(writes);
  }

  /** THE capture theorem: the readable bytes are exactly those of the appends that
      succeeded, whatever they were, if and only if the outcomes were faithful. */
  lemma CapturedExactly(tears: seq<Tear>)
    ensures KeepsCaptured(tears) <==> Faithful(tears)
  {
    if Faithful(tears) {
      forall writes | Tears(writes) == tears
        ensures Bytes(Readable(FileAfter(writes).lines)) == CapturedBytes(writes)
      {
        ReadableIsClosedThenOpen(writes);
        FaithfulIsCaptured(writes);
      }
    }
    if KeepsCaptured(tears) {
      UnfaithfulLoses(tears);
    }
  }

  /** In particular when every append succeeded or wrote nothing. */
  lemma {:induction false} CleanIsFaithful(tears: seq<Tear>)
    requires forall i :: 0 <= i < |tears| ==> tears[i] == Everything || tears[i] == Nothing
    ensures Ended(tears) && Faithful(tears)
  {
    forall i | 0 <= i <= |tears|
      ensures Ended(tears[..i])
    {
      EndedPrefix(tears, i);
    }
    assert tears[..|tears|] == tears;
    if tears != [] {
      CleanIsFaithful(tears[..|tears| - 1]);
    }
  }

  lemma {:induction false} EndedPrefix(tears: seq<Tear>, i: nat)
    requires i <= |tears| && forall k :: 0 <= k < |tears| ==> tears[k] == Everything || tears[k] == Nothing
    ensures Ended(tears[..i])
    decreases i
  {
    if i > 0 {
      assert tears[..i][..i - 1] == tears[..i - 1];
      EndedPrefix(tears, i - 1);
    }
  }

  /** THE paging theorem: reading any file page by page from offset 0 ends, and
      yields every readable chunk exactly once, in order; after faithful outcomes
      that is every byte captured and no other. */
  lemma PagingReassembles(writes: seq<Write>, limit: nat)
    requires Fits(Readable(FileAfter(writes).lines), limit)
    ensures var chunks := Readable(FileAfter(writes).lines);
            && GapFree(chunks) && Cut(chunks, 0, 0)
            && AllPages(chunks, 0, 0, limit) == chunks
            && (Faithful(Tears(writes)) ==> Bytes(AllPages(chunks, 0, 0, limit)) == CapturedBytes(writes))
  {
    EveryFileIsSound(writes);
    CapturedExactly(Tears(writes));
    PagesCoverTheRest(Readable(FileAfter(writes).lines), 0, 0, limit);
  }

  /** Past the end of chunk `m - 1` lie exactly the chunks from `m` on. */
  lemma StartsAtCut(chunks: seq<Chunk>, m: nat)
    requires GapFree(chunks) && 0 < m <= |chunks|
    requires forall j :: 0 <= j < |chunks| ==> 0 < |chunks[j].data|
    ensures var end := chunks[m - 1].offset + |chunks[m - 1].data|;
            forall j :: 0 <= j < |chunks| ==> (chunks[j].offset < end <==> j < m)
  {
    forall j | 0 <= j < |chunks|
      ensures chunks[j].offset < chunks[m - 1].offset + |chunks[m - 1].data| <==> j < m
    {
      if j < m - 1 {
        OffsetsGrow(chunks, j, m - 1);
      } else if j > m - 1 {
        OffsetsGrow(chunks, m - 1, j);
      }
    }
  }
}
