/** The incremental reader of an agent's JSONL transcript (supervisor/adapters/jsonl_observer.py).
    A file is a string of characters; offsets count characters. */
module JsonlTail {
  import opened Options
  import opened TextLines

  /** What `bytes.strip` removes. */
  predicate IsBlank(raw: string) {
    forall i :: 0 <= i < |raw| ==> raw[i] in {' ', '\t', '\n', '\r', '\U{0B}', '\U{0C}'}
  }

  // ----- one read ------------------------------------------------------------------------

  /** Where a read starts: at zero again if the file has shrunk. */
  function From(offset: nat, file: string): (start: nat)
    ensures start <= |file|
  {
    if |file| < offset then 0 else offset
  }

  /** The text that a read takes in. */
  function Chunk(offset: nat, file: string): string {
    var raw := file[From(offset, file)..];
    if IsBlank(raw) then "" else raw[..LastNewline(raw) + 1]
  }

  function Next(offset: nat, file: string): nat {
    From(offset, file) + |Chunk(offset, file)|
  }

  /** The lines that a read hands to the JSON parser. */
  function Taken(chunk: string): seq<string> {
    SplitLines(Trim(chunk, SPACES))
  }

  /** What becomes of a line: it is no JSON value or holds no text; it holds a text, which counts unless it
      is empty; or looking for one raises, as it does in a value that is no object. */
  datatype Event = NoEvent | Text(text: string) | Raises

  type Extract = string -> Event

  function TextOf(extract: Extract, line: string): seq<string> {
    match extract(line)
    case Text(text) => if text == "" then [] else [text]
    case _ => []
  }

  function Texts(extract: Extract, lines: seq<string>): seq<string> {
    if lines == [] then []
    else Texts(extract, lines[..|lines| - 1]) + TextOf(extract, lines[|lines| - 1])
  }

  predicate AnyRaises(extract: Extract, lines: seq<string>) {
    exists i :: 0 <= i < |lines| && extract(lines[i]).Raises?
  }

  /** `text_parts[-lines:]`: zero keeps everything. */
  function Newest(texts: seq<string>, limit: nat): seq<string> {
    if limit == 0 || |texts| <= limit then texts else texts[|texts| - limit..]
  }

  datatype Observer = Observer(extract: Extract, limit: nat)

  /** What a read adds to the buffer: nothing at all once a line raises. */
  function Added(o: Observer, lines: seq<string>): seq<string> {
    if AnyRaises(o.extract, lines) then [] else Newest(Texts(o.extract, lines), o.limit)
  }

  /** Where a reader has got to, and the lines it has handed on and the texts it has added so
      far. The offset moves before any line is looked at. */
  datatype Reading = Reading(offset: nat, taken: seq<string>, added: seq<string>)

  const START := Reading(0, [], [])

  function ReadOnce(o: Observer, r: Reading, file: string): Reading {
    var lines := Taken(Chunk(r.offset, file));
    Reading(Next(r.offset, file), r.taken + lines, r.added + Added(o, lines))
  }

  /** After a read, no complete line is left behind, unless all that is left is blank. */
  lemma ReadCatchesUp(offset: nat, file: string)
    requires offset <= |file|
    ensures var left := file[Next(offset, file)..];
            IsBlank(left) || Free(left, NEWLINE)
  {
    var raw := file[offset..];
    if !IsBlank(raw) {
      var k := LastNewline(raw);
      FreeAfter(raw, k);
      assert file[Next(offset, file)..] == raw[k + 1..];
    }
  }

  lemma FreeAfter(raw: string, k: int)
    requires -1 <= k < |raw| && forall i :: k < i < |raw| ==> raw[i] != '\n'
    ensures Free(raw[k + 1..], NEWLINE)
  {
  }

  // ----- what a read makes of its lines --------------------------------------------------

  predicate Terminated(t: string) {
    t == "" || t[|t| - 1] == '\n'
  }

  /** No line has a break inside, and `strip` takes nothing harmful off the ends. */
  predicate KeptWhole(chunk: string) {
    Untorn(Lines(chunk)) && HarmlessEnds(chunk)
  }

  /** How what is handed on, `got`, compares with what the lines hold, `held`. */
  predicate Mirrors(got: seq<string>, held: seq<string>, kept: bool, untorn: bool) {
    && (kept ==> untorn && got == held)
    && (untorn && !kept ==> Weight(got) < Weight(held))
    && AllFree(got)
    && (!untorn ==> !AllFree(held))
  }

  predicate AllFree(lines: seq<string>) {
    lines == [] || (AllFree(lines[..|lines| - 1]) && Free(lines[|lines| - 1], BREAKS))
  }

  lemma {:induction false} AllFreeIff(lines: seq<string>)
    ensures AllFree(lines) <==> forall p :: p in lines ==> Free(p, BREAKS)
  {
    if lines != [] {
      var init, last := lines[..|lines| - 1], lines[|lines| - 1];
      AllFreeIff(init);
      assert lines == init + [last];
    }
  }

  lemma AllFreeOfJoin(a: seq<string>, b: seq<string>)
    ensures AllFree(a + b) <==> AllFree(a) && AllFree(b)
  {
    AllFreeIff(a);
    AllFreeIff(b);
    AllFreeIff(a + b);
    if AllFree(a + b) {
      forall p | p in a || p in b
        ensures Free(p, BREAKS)
      {
        assert p in a + b;
      }
    }
  }

  lemma MirrorsJoin(g: seq<string>, h: seq<string>, k: bool, u: bool,
                    g2: seq<string>, h2: seq<string>, k2: bool, u2: bool)
    requires Mirrors(g, h, k, u) && Mirrors(g2, h2, k2, u2)
    ensures Mirrors(g + g2, h + h2, k && k2, u && u2)
  {
    WeightOfJoin(g, g2);
    WeightOfJoin(h, h2);
    AllFreeOfJoin(g, g2);
    AllFreeOfJoin(h, h2);
  }

  lemma MirrorsIff(got: seq<string>, held: seq<string>, kept: bool, untorn: bool)
    requires Mirrors(got, held, kept, untorn)
    ensures got == held <==> kept
  {
  }

  lemma ChunkMirrors(chunk: string)
    requires Terminated(chunk)
    ensures Mirrors(Payload(Taken(chunk)), Payload(Lines(chunk)), KeptWhole(chunk), Untorn(Lines(chunk)))
  {
    var trimmed := Trim(chunk, SPACES);
    SplitLinesIsBroken(trimmed);
    PiecesAreFree(trimmed, BREAKS);
    PayloadKeepsFree(Pieces(trimmed, BREAKS));
    AllFreeIff(Payload(Taken(chunk)));
    if Untorn(Lines(chunk)) {
      BrokenOfUntorn(chunk);
      StripLosesIff(chunk);
    } else {
      TornLineIsHeld(chunk);
    }
  }

  lemma TornLineIsHeld(chunk: string)
    requires !Untorn(Lines(chunk))
    ensures !AllFree(Payload(Lines(chunk)))
  {
    var i :| 0 <= i < |Lines(chunk)| && !Free(JsonTrim(Lines(chunk)[i]), BREAKS);
    PayloadHasLine(Lines(chunk), i);
    AllFreeIff(Payload(Lines(chunk)));
  }

  // ----- all reads -----------------------------------------------------------------------

  predicate Extends(before: string, after: string) {
    |before| <= |after| && after[..|before|] == before
  }

  /** The file is only appended to between reads. */
  predicate Grows(files: seq<string>) {
    forall i {:trigger Extends(files[i], files[i + 1])} :: 0 <= i < |files| - 1 ==> Extends(files[i], files[i + 1])
  }

  /** What a fresh reader goes through on these files. */
  ghost predicate IsReading(o: Observer, files: seq<string>, rs: seq<Reading>) {
    && |rs| == |files| + 1 && rs[0] == START
    && forall i {:trigger ReadOnce(o, rs[i], files[i])} ::
         0 <= i < |files| ==> rs[i + 1] == ReadOnce(o, rs[i], files[i])
  }

  function ChunkAt(files: seq<string>, rs: seq<Reading>, i: nat): string
    requires i < |files| < |rs|
  {
    Chunk(rs[i].offset, files[i])
  }

  /** No read up to number `n` damages a line. */
  predicate AllKept(files: seq<string>, rs: seq<Reading>, n: nat)
    requires n < |files| < |rs|
  {
    forall i :: 0 <= i <= n ==> KeptWhole(ChunkAt(files, rs, i))
  }

  predicate AllUntorn(files: seq<string>, rs: seq<Reading>, n: nat)
    requires n < |files| < |rs|
  {
    forall i :: 0 <= i <= n ==> Untorn(Lines(ChunkAt(files, rs, i)))
  }

  predicate AtBoundary(file: string, offset: nat) {
    offset <= |file| && (offset == 0 || file[offset - 1] == '\n')
  }

  /** A read of a grown file starts where the last one ended and takes whole lines. */
  lemma ReadTakesWholeLines(before: string, offset: nat, file: string)
    requires AtBoundary(before, offset) && before <= file
    ensures var n := Next(offset, file);
            && AtBoundary(file, n) && file[..n] == before[..offset] + Chunk(offset, file)
            && Terminated(before[..offset]) && Terminated(Chunk(offset, file))
  {
    var raw := file[offset..];
    var k := LastNewline(raw);
    assert before[..offset] == file[..offset];
    assert offset > 0 ==> before[offset - 1] == file[offset - 1];
    assert raw[..k + 1] == file[offset..offset + k + 1];
  }

  /** The offset is a line boundary, and what was handed on mirrors what lies before it. */
  predicate Mirrored(file: string, r: Reading, kept: bool, untorn: bool) {
    && AtBoundary(file, r.offset)
    && Mirrors(Payload(r.taken), Payload(Lines(file[..r.offset])), kept, untorn)
  }

  lemma ReadMirrors(o: Observer, before: string, r: Reading, file: string, kept: bool, untorn: bool)
    returns (stillKept: bool, stillUntorn: bool)
    requires Extends(before, file)
    ensures Mirrored(before, r, kept, untorn) ==> Mirrored(file, ReadOnce(o, r, file), stillKept, stillUntorn)
    ensures stillKept == (kept && KeptWhole(Chunk(r.offset, file)))
    ensures stillUntorn == (untorn && Untorn(Lines(Chunk(r.offset, file))))
  {
    var chunk := Chunk(r.offset, file);
    stillKept, stillUntorn := kept && KeptWhole(chunk), untorn && Untorn(Lines(chunk));
    if Mirrored(before, r, kept, untorn) {
      ReadTakesWholeLines(before, r.offset, file);
      LinesOfJoin(before[..r.offset], chunk);
      ChunkMirrors(chunk);
      PayloadOfJoin(r.taken, Taken(chunk));
      PayloadOfJoin(Lines(before[..r.offset]), Lines(chunk));
      MirrorsJoin(Payload(r.taken), Payload(Lines(before[..r.offset])), kept, untorn,
                  Payload(Taken(chunk)), Payload(Lines(chunk)), KeptWhole(chunk), Untorn(Lines(chunk)));
    }
  }

  lemma NothingMirrors()
    ensures Mirrored("", START, true, true) && Lines("") == []
  {
    assert ""[..0] == "";
  }

  /** What one more read adds to the record of damage. */
  lemma OneMoreRead(files: seq<string>, rs: seq<Reading>, n: nat)
    requires 0 < n < |files| < |rs|
    ensures AllKept(files, rs, n) <==> AllKept(files, rs, n - 1) && KeptWhole(ChunkAt(files, rs, n))
    ensures AllUntorn(files, rs, n) <==> AllUntorn(files, rs, n - 1) && Untorn(Lines(ChunkAt(files, rs, n)))
  {
  }

  lemma FirstRead(files: seq<string>, rs: seq<Reading>)
    requires 0 < |files| < |rs|
    ensures AllKept(files, rs, 0) <==> KeptWhole(ChunkAt(files, rs, 0))
    ensures AllUntorn(files, rs, 0) <==> Untorn(Lines(ChunkAt(files, rs, 0)))
  {
  }

  lemma NthFile(files: seq<string>, n: nat)
    requires Grows(files) && 0 < n < |files|
    ensures Extends(files[n - 1], files[n])
  {
    var m: nat := n - 1;
    var _ := Extends(files[m], files[m + 1]);
  }

  lemma NthRead(o: Observer, files: seq<string>, rs: seq<Reading>, n: nat)
    requires IsReading(o, files, rs) && n < |files|
    ensures rs[n + 1] == ReadOnce(o, rs[n], files[n])
    ensures n == 0 ==> rs[n] == START
  {
  }

  ghost predicate MirroredAt(files: seq<string>, rs: seq<Reading>, n: nat)
    requires n < |files| < |rs|
  {
    Mirrored(files[n], rs[n + 1], AllKept(files, rs, n), AllUntorn(files, rs, n))
  }

  lemma {:induction false} ReadsMirror(o: Observer, files: seq<string>, rs: seq<Reading>, n: nat)
    requires Grows(files) && IsReading(o, files, rs) && n < |files|
    ensures MirroredAt(files, rs, n)
  {
    if n == 0 {
      FirstReadMirrors(o, files, rs, n);
    } else {
      var m: nat := n - 1;
      ReadsMirror(o, files, rs, m);
      NextReadMirrors(o, files, rs, m, n);
    }
  }

  lemma FirstReadMirrors(o: Observer, files: seq<string>, rs: seq<Reading>, n: nat)
    requires IsReading(o, files, rs) && n == 0 && files != []
    ensures MirroredAt(files, rs, n)
  {
    NothingMirrors();
    NthRead(o, files, rs, n);
    FirstRead(files, rs);
    var kept, untorn := ReadMirrors(o, "", rs[n], files[n], true, true);
  }

  lemma NextReadMirrors(o: Observer, files: seq<string>, rs: seq<Reading>, m: nat, n: nat)
    requires Grows(files) && IsReading(o, files, rs) && n == m + 1 < |files|
    ensures MirroredAt(files, rs, m) ==> MirroredAt(files, rs, n)
  {
    if MirroredAt(files, rs, m) {
      NthRead(o, files, rs, n);
      NthFile(files, n);
      OneMoreRead(files, rs, n);
      var kept, untorn := ReadMirrors(o, files[m], rs[n], files[n], AllKept(files, rs, m), AllUntorn(files, rs, m));
    }
  }

  /** However the file grows, the offset is always a line boundary, and what all reads hand on is
      what a JSON parser would see in the lines of the consumed prefix, in order and once each,
      exactly when no line has a break inside and no read has something harmful stripped off. */
  lemma ReadsAreExactIff(o: Observer, files: seq<string>, rs: seq<Reading>, n: nat)
    requires Grows(files) && IsReading(o, files, rs) && n < |files|
    ensures AtBoundary(files[n], rs[n + 1].offset)
    ensures Payload(rs[n + 1].taken) == Payload(Lines(files[n][..rs[n + 1].offset])) <==> AllKept(files, rs, n)
  {
    ReadsMirror(o, files, rs, n);
    MirrorsIff(Payload(rs[n + 1].taken), Payload(Lines(files[n][..rs[n + 1].offset])),
               AllKept(files, rs, n), AllUntorn(files, rs, n));
  }

  /** What is handed on compares with the text it comes from: all of it, or less of it. */
  predicate Follows(got: seq<string>, held: seq<string>, whole: bool) {
    if whole then got == held else Weight(got) < Weight(held)
  }

  predicate AllHarmless(files: seq<string>, rs: seq<Reading>, n: nat)
    requires n < |files| < |rs|
  {
    forall i :: 0 <= i <= n ==> HarmlessEnds(ChunkAt(files, rs, i))
  }

  predicate Followed(file: string, r: Reading, whole: bool) {
    && AtBoundary(file, r.offset)
    && Follows(Payload(r.taken), Broken(file[..r.offset]), whole)
  }

  ghost predicate FollowedAt(files: seq<string>, rs: seq<Reading>, n: nat)
    requires n < |files| < |rs|
  {
    Followed(files[n], rs[n + 1], AllHarmless(files, rs, n))
  }

  lemma FollowsJoin(g: seq<string>, h: seq<string>, f: bool, g2: seq<string>, h2: seq<string>, f2: bool)
    requires Follows(g, h, f) && Follows(g2, h2, f2)
    ensures Follows(g + g2, h + h2, f && f2)
  {
    WeightOfJoin(g, g2);
    WeightOfJoin(h, h2);
  }

  lemma ReadFollows(o: Observer, before: string, r: Reading, file: string, whole: bool) returns (still: bool)
    requires Extends(before, file)
    ensures Followed(before, r, whole) ==> Followed(file, ReadOnce(o, r, file), still)
    ensures still == (whole && HarmlessEnds(Chunk(r.offset, file)))
  {
    var chunk := Chunk(r.offset, file);
    still := whole && HarmlessEnds(chunk);
    if Followed(before, r, whole) {
      ReadTakesWholeLines(before, r.offset, file);
      BrokenOfJoin(before[..r.offset], chunk);
      SplitLinesIsBroken(Trim(chunk, SPACES));
      StripLosesIff(chunk);
      PayloadOfJoin(r.taken, Taken(chunk));
      FollowsJoin(Payload(r.taken), Broken(before[..r.offset]), whole,
                  Payload(Taken(chunk)), Broken(chunk), HarmlessEnds(chunk));
    }
  }

  lemma {:induction false} ReadsFollow(o: Observer, files: seq<string>, rs: seq<Reading>, n: nat)
    requires Grows(files) && IsReading(o, files, rs) && n < |files|
    ensures FollowedAt(files, rs, n)
  {
    if n == 0 {
      FirstReadFollows(o, files, rs, n);
    } else {
      var m: nat := n - 1;
      ReadsFollow(o, files, rs, m);
      NextReadFollows(o, files, rs, m, n);
    }
  }

  lemma FirstReadFollows(o: Observer, files: seq<string>, rs: seq<Reading>, n: nat)
    requires IsReading(o, files, rs) && n == 0 && files != []
    ensures FollowedAt(files, rs, n)
  {
    BrokenOfFree("");
    NthRead(o, files, rs, n);
    FirstHarmless(files, rs);
    assert ""[..0] == "";
    var whole := ReadFollows(o, "", rs[n], files[n], true);
  }

  lemma NextReadFollows(o: Observer, files: seq<string>, rs: seq<Reading>, m: nat, n: nat)
    requires Grows(files) && IsReading(o, files, rs) && n == m + 1 < |files|
    ensures FollowedAt(files, rs, m) ==> FollowedAt(files, rs, n)
  {
    if FollowedAt(files, rs, m) {
      NthRead(o, files, rs, n);
      NthFile(files, n);
      OneMoreHarmless(files, rs, n);
      var whole := ReadFollows(o, files[m], rs[n], files[n], AllHarmless(files, rs, m));
    }
  }

  lemma FirstHarmless(files: seq<string>, rs: seq<Reading>)
    requires 0 < |files| < |rs|
    ensures AllHarmless(files, rs, 0) <==> HarmlessEnds(ChunkAt(files, rs, 0))
  {
  }

  lemma OneMoreHarmless(files: seq<string>, rs: seq<Reading>, n: nat)
    requires 0 < n < |files| < |rs|
    ensures AllHarmless(files, rs, n) <==> AllHarmless(files, rs, n - 1) && HarmlessEnds(ChunkAt(files, rs, n))
  {
  }

  lemma FollowsIff(got: seq<string>, held: seq<string>, whole: bool)
    requires Follows(got, held, whole)
    ensures got == held <==> whole
  {
  }

  /** Torn or not, what all reads hand on is the consumed prefix broken at every line break, in order
      and once each, exactly when no read has something harmful stripped off. */
  lemma ReadsAreFaithfulIff(o: Observer, files: seq<string>, rs: seq<Reading>, n: nat)
    requires Grows(files) && IsReading(o, files, rs) && n < |files|
    ensures AtBoundary(files[n], rs[n + 1].offset)
    ensures Payload(rs[n + 1].taken) == Broken(files[n][..rs[n + 1].offset]) <==> AllHarmless(files, rs, n)
  {
    ReadsFollow(o, files, rs, n);
    FollowsIff(Payload(rs[n + 1].taken), Broken(files[n][..rs[n + 1].offset]), AllHarmless(files, rs, n));
  }

  // ----- events --------------------------------------------------------------------------

  /** What becomes of a line depends only on what a JSON parser sees of it. */
  ghost predicate ReadsJson(extract: Extract) {
    forall line :: extract(line) == if JsonTrim(line) == "" then NoEvent else extract(JsonTrim(line))
  }

  lemma TextsNext(extract: Extract, lines: seq<string>, line: string)
    ensures Texts(extract, lines + [line]) == Texts(extract, lines) + TextOf(extract, line)
  {
    assert (lines + [line])[..|lines|] == lines;
  }

  lemma {:induction false} TextsOfJoin(extract: Extract, a: seq<string>, b: seq<string>)
    ensures Texts(extract, a + b) == Texts(extract, a) + Texts(extract, b)
  {
    if b == [] {
      assert a + b == a;
    } else {
      var init, last := b[..|b| - 1], b[|b| - 1];
      TextsOfJoin(extract, a, init);
      assert b == init + [last];
      Regroup(a, init, [last]);
      TextsNext(extract, a + init, last);
      TextsNext(extract, init, last);
      Regroup(Texts(extract, a), Texts(extract, init), TextOf(extract, last));
    }
  }

  lemma TextOfPayload(extract: Extract, line: string)
    requires ReadsJson(extract)
    ensures TextOf(extract, line) == if JsonTrim(line) == "" then [] else TextOf(extract, JsonTrim(line))
    ensures extract(line).Raises? <==> JsonTrim(line) != "" && extract(JsonTrim(line)).Raises?
  {
    assert extract(line) == if JsonTrim(line) == "" then NoEvent else extract(JsonTrim(line));
  }

  lemma TextsOfLast(extract: Extract, init: seq<string>, last: string)
    requires ReadsJson(extract)
    ensures var seen := PayloadOf(last);
            && Texts(extract, Payload(init) + seen) == Texts(extract, Payload(init)) + TextOf(extract, last)
            && (AnyRaises(extract, Payload(init) + seen) <==>
                  AnyRaises(extract, Payload(init)) || extract(last).Raises?)
  {
    var before := Payload(init);
    TextOfPayload(extract, last);
    if JsonTrim(last) == "" {
      assert before + [] == before && Texts(extract, before) + [] == Texts(extract, before);
    } else {
      TextsNext(extract, before, JsonTrim(last));
      RaisesNext(extract, before, JsonTrim(last));
    }
  }

  lemma {:induction false} TextsOfPayload(extract: Extract, lines: seq<string>)
    requires ReadsJson(extract)
    ensures Texts(extract, Payload(lines)) == Texts(extract, lines)
    ensures AnyRaises(extract, Payload(lines)) <==> AnyRaises(extract, lines)
  {
    if lines != [] {
      var init, last := lines[..|lines| - 1], lines[|lines| - 1];
      TextsOfPayload(extract, init);
      PayloadOfLast(lines, last);
      assert lines == init + [last];
      TextsNext(extract, init, last);
      RaisesNext(extract, init, last);
      TextsOfLast(extract, init, last);
    }
  }

  lemma RaisesNext(extract: Extract, lines: seq<string>, line: string)
    ensures AnyRaises(extract, lines + [line]) <==> AnyRaises(extract, lines) || extract(line).Raises?
  {
    var more := lines + [line];
    if extract(line).Raises? {
      assert extract(more[|lines|]).Raises?;
    }
    if i :| 0 <= i < |lines| && extract(lines[i]).Raises? {
      assert extract(more[i]).Raises?;
    }
  }

  /** A read loses no event of its lines: there is none, or no line raises and all fit. */
  predicate LosesNothing(o: Observer, lines: seq<string>) {
    var texts := Texts(o.extract, lines);
    texts == [] || (!AnyRaises(o.extract, lines) && (o.limit == 0 || |texts| <= o.limit))
  }

  /** What is added compares with all there is: equal, or shorter where something is lost. */
  predicate Fits(added: seq<string>, all: seq<string>, whole: bool) {
    if whole then added == all else |added| < |all|
  }

  lemma AddedFits(o: Observer, lines: seq<string>)
    ensures Fits(Added(o, lines), Texts(o.extract, lines), LosesNothing(o, lines))
  {
  }

  lemma FitsJoin(a: seq<string>, x: seq<string>, f: bool, a2: seq<string>, x2: seq<string>, f2: bool)
    requires Fits(a, x, f) && Fits(a2, x2, f2)
    ensures Fits(a + a2, x + x2, f && f2)
  {
  }

  predicate AllFit(o: Observer, files: seq<string>, rs: seq<Reading>, n: nat)
    requires n < |files| < |rs|
  {
    forall i :: 0 <= i <= n ==> LosesNothing(o, Lines(ChunkAt(files, rs, i)))
  }

  lemma KeptChunkFits(o: Observer, chunk: string)
    requires ReadsJson(o.extract) && Terminated(chunk) && KeptWhole(chunk)
    ensures Fits(Added(o, Taken(chunk)), Texts(o.extract, Lines(chunk)), LosesNothing(o, Lines(chunk)))
  {
    ChunkMirrors(chunk);
    TextsOfPayload(o.extract, Taken(chunk));
    TextsOfPayload(o.extract, Lines(chunk));
    AddedFits(o, Taken(chunk));
  }

  /** The offset is a line boundary, and what was added compares with what lies before it. */
  predicate Fitted(o: Observer, file: string, r: Reading, whole: bool) {
    && AtBoundary(file, r.offset)
    && Fits(r.added, Texts(o.extract, Lines(file[..r.offset])), whole)
  }

  lemma ReadFits(o: Observer, before: string, r: Reading, file: string, whole: bool) returns (still: bool)
    requires ReadsJson(o.extract) && Extends(before, file) && KeptWhole(Chunk(r.offset, file))
    ensures Fitted(o, before, r, whole) ==> Fitted(o, file, ReadOnce(o, r, file), still)
    ensures still == (whole && LosesNothing(o, Lines(Chunk(r.offset, file))))
  {
    var chunk := Chunk(r.offset, file);
    still := whole && LosesNothing(o, Lines(chunk));
    if Fitted(o, before, r, whole) {
      var lines, more := Lines(before[..r.offset]), Lines(chunk);
      ReadTakesWholeLines(before, r.offset, file);
      LinesOfJoin(before[..r.offset], chunk);
      KeptChunkFits(o, chunk);
      TextsOfJoin(o.extract, lines, more);
      FitsJoin(r.added, Texts(o.extract, lines), whole,
               Added(o, Taken(chunk)), Texts(o.extract, more), LosesNothing(o, more));
    }
  }

  ghost predicate FittedAt(o: Observer, files: seq<string>, rs: seq<Reading>, n: nat)
    requires n < |files| < |rs|
  {
    AllKept(files, rs, n) ==> Fitted(o, files[n], rs[n + 1], AllFit(o, files, rs, n))
  }

  lemma {:induction false} ReadsFit(o: Observer, files: seq<string>, rs: seq<Reading>, n: nat)
    requires Grows(files) && IsReading(o, files, rs) && n < |files| && ReadsJson(o.extract)
    ensures FittedAt(o, files, rs, n)
  {
    if n == 0 {
      FirstReadFits(o, files, rs, n);
    } else {
      var m: nat := n - 1;
      ReadsFit(o, files, rs, m);
      NextReadFits(o, files, rs, m, n);
    }
  }

  lemma FirstReadFits(o: Observer, files: seq<string>, rs: seq<Reading>, n: nat)
    requires IsReading(o, files, rs) && n == 0 && files != [] && ReadsJson(o.extract)
    ensures FittedAt(o, files, rs, n)
  {
    if AllKept(files, rs, n) {
      NothingFits(o);
      NthRead(o, files, rs, n);
      FirstRead(files, rs);
      FirstFits(o, files, rs);
      var whole := ReadFits(o, "", rs[n], files[n], true);
    }
  }

  lemma NextReadFits(o: Observer, files: seq<string>, rs: seq<Reading>, m: nat, n: nat)
    requires Grows(files) && IsReading(o, files, rs) && n == m + 1 < |files| && ReadsJson(o.extract)
    ensures FittedAt(o, files, rs, m) ==> FittedAt(o, files, rs, n)
  {
    if FittedAt(o, files, rs, m) && AllKept(files, rs, n) {
      NthRead(o, files, rs, n);
      NthFile(files, n);
      OneMoreRead(files, rs, n);
      OneMoreFits(o, files, rs, n);
      var whole := ReadFits(o, files[m], rs[n], files[n], AllFit(o, files, rs, m));
    }
  }

  lemma NothingFits(o: Observer)
    ensures Fitted(o, "", START, true)
  {
    NothingMirrors();
    assert ""[..0] == "";
  }

  lemma FirstFits(o: Observer, files: seq<string>, rs: seq<Reading>)
    requires 0 < |files| < |rs|
    ensures AllFit(o, files, rs, 0) <==> LosesNothing(o, Lines(ChunkAt(files, rs, 0)))
  {
  }

  lemma OneMoreFits(o: Observer, files: seq<string>, rs: seq<Reading>, n: nat)
    requires 0 < n < |files| < |rs|
    ensures AllFit(o, files, rs, n) <==> AllFit(o, files, rs, n - 1) && LosesNothing(o, Lines(ChunkAt(files, rs, n)))
  {
  }

  /** Where no read damages a line, the events of all reads are those of the lines of the consumed
      prefix, exactly when no read with a text in it meets a line that raises or more texts than
      it keeps. */
  lemma EventsAreExactIff(o: Observer, files: seq<string>, rs: seq<Reading>, n: nat)
    requires Grows(files) && IsReading(o, files, rs) && n < |files|
    requires ReadsJson(o.extract) && AllKept(files, rs, n)
    ensures AtBoundary(files[n], rs[n + 1].offset)
    ensures rs[n + 1].added == Texts(o.extract, Lines(files[n][..rs[n + 1].offset])) <==> AllFit(o, files, rs, n)
  {
    ReadsFit(o, files, rs, n);
  }

  /** The extractor to which every value is a text. */
  function Verbatim(line: string): Event {
    if JsonTrim(line) == "" then NoEvent else Text(JsonTrim(line))
  }

  const VERBATIM := Observer(Verbatim, 0)

  lemma VerbatimReadsJson()
    ensures ReadsJson(Verbatim)
  {
    forall line: string
      ensures Verbatim(line) == if JsonTrim(line) == "" then NoEvent else Verbatim(JsonTrim(line))
    {
      TrimTwice(line, JSON_SPACES);
    }
  }

  lemma {:induction false} VerbatimTexts(lines: seq<string>)
    ensures Texts(Verbatim, lines) == Payload(lines) && !AnyRaises(Verbatim, lines)
  {
    if lines != [] {
      var init, last := lines[..|lines| - 1], lines[|lines| - 1];
      VerbatimTexts(init);
      PayloadOfLast(lines, last);
    }
  }

  predicate AddsAll(r: Reading) {
    r.added == Payload(r.taken)
  }

  lemma VerbatimRead(r: Reading, file: string)
    requires AddsAll(r)
    ensures AddsAll(ReadOnce(VERBATIM, r, file))
  {
    var lines := Taken(Chunk(r.offset, file));
    VerbatimTexts(lines);
    PayloadOfJoin(r.taken, lines);
  }

  lemma NextAddsAll(files: seq<string>, rs: seq<Reading>, m: nat, n: nat)
    requires IsReading(VERBATIM, files, rs) && n == m + 1 < |rs|
    ensures AddsAll(rs[m]) ==> AddsAll(rs[n])
  {
    if AddsAll(rs[m]) {
      VerbatimRead(rs[m], files[m]);
      NthRead(VERBATIM, files, rs, m);
    }
  }

  lemma {:induction false} VerbatimAddsAll(files: seq<string>, rs: seq<Reading>, n: nat)
    requires IsReading(VERBATIM, files, rs) && n < |rs|
    ensures AddsAll(rs[n])
  {
    if n > 0 {
      var m: nat := n - 1;
      VerbatimAddsAll(files, rs, m);
      NextAddsAll(files, rs, m, n);
    }
  }

  /** That no read damages a line is needed as well: the extractor to which every value is a text
      and which never raises gets the events of the lines exactly in that case. */
  lemma VerbatimEventsAreExactIff(files: seq<string>, rs: seq<Reading>, n: nat)
    requires Grows(files) && IsReading(VERBATIM, files, rs) && n < |files|
    ensures AtBoundary(files[n], rs[n + 1].offset)
    ensures ReadsJson(Verbatim)
    ensures rs[n + 1].added == Texts(Verbatim, Lines(files[n][..rs[n + 1].offset])) <==> AllKept(files, rs, n)
  {
    VerbatimReadsJson();
    ReadsAreExactIff(VERBATIM, files, rs, n);
    VerbatimAddsAll(files, rs, n + 1);
    VerbatimTexts(Lines(files[n][..rs[n + 1].offset]));
  }

  // ----- what can go wrong ---------------------------------------------------------------

  lemma ChunkIsRest(head: string, chunk: string)
    requires chunk != "" && chunk[|chunk| - 1] == '\n' && !IsBlank([chunk[0]])
    ensures Chunk(|head|, head + chunk) == chunk && Next(|head|, head + chunk) == |head + chunk|
  {
    var raw := (head + chunk)[|head|..];
    assert raw == chunk;
    assert [chunk[0]][0] == raw[0];
    assert raw[..|raw|] == raw;
  }

  lemma ReadsChunk(o: Observer, r: Reading, head: string, chunk: string, lines: seq<string>)
    requires chunk != "" && chunk[|chunk| - 1] == '\n' && !IsBlank([chunk[0]])
    requires r.offset == |head| && Taken(chunk) == lines
    ensures ReadOnce(o, r, head + chunk) == Reading(|head + chunk|, r.taken + lines, r.added + Added(o, lines))
  {
    ChunkIsRest(head, chunk);
  }

  lemma OneLine(t: string)
    requires t != "" && Free(t, BREAKS)
    ensures SplitLines(t) == [t]
  {
    assert FirstBreak(t) == |t|;
  }

  lemma TwoLines(a: string, c: char, b: string)
    requires b != "" && Free(a, BREAKS) && Free(b, BREAKS) && c in BREAKS && c != '\r'
    ensures SplitLines(a + [c] + b) == [a, b]
  {
    var t := a + [c] + b;
    assert t[|a|] == c && t[..|a|] == a && t[|a| + 1..] == b;
    assert FirstBreak(t) == |a| && AfterBreak(t, |a|) == b;
    OneLine(b);
  }

  lemma TakenOfBody(body: string)
    requires body != "" && body[0] !in SPACES && body[|body| - 1] !in SPACES
    ensures Taken(body + ['\n']) == SplitLines(body)
  {
    TrimIgnoresTrailing(body, '\n', SPACES);
    NothingTrimmed(body);
  }

  lemma Ordinary(c: char)
    requires '!' <= c <= '~'
    ensures c !in SPACES && c !in BREAKS && !IsBlank([c])
  {
    assert [c][0] == c;
  }

  /** A line that JSON allows, and that is handed on in two parts. */
  lemma LineSeparatorTears(o: Observer)
    ensures var line := "\"a" + ['\U{2028}'] + "b\"";
            Lines(line + ['\n']) == [line] && ReadOnce(o, START, line + ['\n']).taken == ["\"a", "b\""]
  {
    var line := "\"a" + ['\U{2028}'] + "b\"";
    Ordinary('"');
    Ordinary('a');
    Ordinary('b');
    LineOf(line);
    TwoLines("\"a", '\U{2028}', "b\"");
    assert line[0] == '"' && line[|line| - 1] == '"';
    TakenOfBody(line);
    ReadsChunk(o, START, "", line + ['\n'], ["\"a", "b\""]);
    assert "" + (line + ['\n']) == line + ['\n'];
    assert [] + ["\"a", "b\""] == ["\"a", "b\""];
  }

  const NBSP := '\U{A0}'
  const EARLY := "{}" + ['\n']
  const INDENTED := [NBSP] + "{}"
  const REST := INDENTED + ['\n']

  /** What is handed on depends on when the file is read. A no-break space in front of a value
      stays where it is if the line before it is read with it, and is stripped off if not. */
  lemma GrowthDecides(o: Observer)
    ensures ReadOnce(o, START, EARLY + REST).taken == ["{}", INDENTED]
    ensures ReadOnce(o, ReadOnce(o, START, EARLY), EARLY + REST).taken == ["{}", "{}"]
  {
    ReadAtOnce(o);
    ReadEarly(o);
    ReadLate(o, ReadOnce(o, START, EARLY));
  }

  lemma TakenOfObject()
    ensures Taken(EARLY) == ["{}"]
  {
    Ordinary('{');
    Ordinary('}');
    OneLine("{}");
    TakenOfBody("{}");
  }

  lemma ReadEarly(o: Observer)
    ensures var r := ReadOnce(o, START, EARLY); r.offset == |EARLY| && r.taken == ["{}"]
  {
    Ordinary('{');
    TakenOfObject();
    ReadsChunk(o, START, "", EARLY, ["{}"]);
    assert "" + EARLY == EARLY && [] + ["{}"] == ["{}"];
  }

  lemma ReadLate(o: Observer, r: Reading)
    requires r.offset == |EARLY| && r.taken == ["{}"]
    ensures ReadOnce(o, r, EARLY + REST).taken == ["{}", "{}"]
  {
    TakenOfObject();
    assert REST == [NBSP] + EARLY && [NBSP][0] == NBSP;
    TrimIgnoresLeading(EARLY, NBSP, SPACES);
    ReadsChunk(o, r, EARLY, REST, ["{}"]);
  }

  lemma TakenAtOnce()
    ensures Taken(EARLY + REST) == ["{}", INDENTED] && (EARLY + REST)[0] == '{'
  {
    Ordinary('{');
    Ordinary('}');
    var body := "{}" + ['\n'] + INDENTED;
    assert EARLY + REST == body + ['\n'];
    assert body[0] == '{' && body[|body| - 1] == '}';
    TwoLines("{}", '\n', INDENTED);
    TakenOfBody(body);
  }

  lemma ReadAtOnce(o: Observer)
    ensures ReadOnce(o, START, EARLY + REST).taken == ["{}", INDENTED]
  {
    var whole, lines := EARLY + REST, ["{}", INDENTED];
    Ordinary('{');
    TakenAtOnce();
    ReadsChunk(o, START, "", whole, lines);
    assert "" + whole == whole && [] + lines == lines;
  }

  const WITH_NULL := "{}" + ['\n'] + "null" + ['\n']

  lemma NullIsTaken(o: Observer)
    ensures ReadOnce(o, START, WITH_NULL) == Reading(|WITH_NULL|, ["{}", "null"], Added(o, ["{}", "null"]))
  {
    var body, lines := "{}" + ['\n'] + "null", ["{}", "null"];
    Ordinary('{');
    Ordinary('}');
    Ordinary('n');
    Ordinary('u');
    Ordinary('l');
    assert body[0] == '{' && body[|body| - 1] == 'l';
    TwoLines("{}", '\n', "null");
    TakenOfBody(body);
    ReadsChunk(o, START, "", WITH_NULL, lines);
    assert "" + WITH_NULL == WITH_NULL && [] + lines == lines && [] + Added(o, lines) == Added(o, lines);
  }

  lemma TextsOfTwo(extract: Extract, a: string, b: string)
    ensures Texts(extract, [a, b]) == TextOf(extract, a) + TextOf(extract, b)
  {
    assert [a, b] == [a] + [b] && [] + [a] == [a];
    TextsNext(extract, [a], b);
    TextsNext(extract, [], a);
  }

  /** A JSON value that is no object raises, after the offset has moved: the texts of the read are
      lost, and no later read comes back to them. */
  lemma NullLosesTheRead(extract: Extract, limit: nat, text: string)
    requires extract("{}") == Text(text) && text != "" && extract("null") == Raises
    ensures var r := ReadOnce(Observer(extract, limit), START, WITH_NULL);
            r.offset == |WITH_NULL| && r.added == [] && Texts(extract, r.taken) == [text]
  {
    var lines := ["{}", "null"];
    NullIsTaken(Observer(extract, limit));
    TextsOfTwo(extract, "{}", "null");
    assert extract(lines[1]).Raises?;
  }

  // ----- the rolling buffer --------------------------------------------------------------

  /** `"\n".join`. */
  function Join(lines: seq<string>): string {
    if lines == [] then ""
    else if |lines| == 1 then lines[0]
    else lines[0] + ['\n'] + Join(lines[1..])
  }

  function Appended(buffer: string, texts: seq<string>): string {
    if Join(texts) == "" then buffer else buffer + ['\n'] + Join(texts)
  }

  /** A text cut down to its last lines once it has too many. */
  function CutDown(t: string, limit: nat): string {
    var lines := SplitLines(t);
    if |lines| <= 3 * limit then t else Join(Newest(lines, 2 * limit))
  }

  /** The buffer after some texts. */
  function Rolled(buffer: string, texts: seq<string>, limit: nat): string {
    CutDown(Appended(buffer, texts), limit)
  }

  lemma {:induction false} SplitLinesAreFree(t: string)
    ensures forall line :: line in SplitLines(t) ==> Free(line, BREAKS)
    decreases |t|
  {
    if t != "" && FirstBreak(t) < |t| {
      SplitLinesAreFree(AfterBreak(t, FirstBreak(t)));
    } else if t != "" {
      assert t[..|t|] == t;
    }
  }

  /** A last line that is empty does not survive. */
  function Surviving(lines: seq<string>): seq<string> {
    if lines != [] && lines[|lines| - 1] == "" then lines[..|lines| - 1] else lines
  }

  lemma LineThenRest(line: string, rest: string)
    requires Free(line, BREAKS)
    ensures SplitLines(line + ['\n'] + rest) == [line] + SplitLines(rest)
  {
    var t := line + ['\n'] + rest;
    assert t[|line|] == '\n' && t[..|line|] == line && t[|line| + 1..] == rest;
    assert FirstBreak(t) == |line| && AfterBreak(t, |line|) == rest;
  }

  lemma {:induction false} SplitOfJoin(lines: seq<string>)
    requires forall line :: line in lines ==> Free(line, BREAKS)
    ensures SplitLines(Join(lines)) == Surviving(lines)
  {
    if |lines| == 1 {
      assert lines == [lines[0]];
      if lines[0] != "" {
        OneLine(lines[0]);
      }
    } else if lines != [] {
      SplitOfJoin(lines[1..]);
      LineThenRest(lines[0], Join(lines[1..]));
      assert lines == [lines[0]] + lines[1..];
    }
  }

  lemma SplitAfterCut(t: string, n: nat)
    requires 0 < n <= |SplitLines(t)|
    ensures var lines := SplitLines(t)[|SplitLines(t)| - n..]; SplitLines(Join(lines)) == Surviving(lines)
  {
    SplitLinesAreFree(t);
    SplitOfJoin(SplitLines(t)[|SplitLines(t)| - n..]);
  }

  /** No text is empty. */
  predicate AllFull(texts: seq<string>) {
    forall i :: 0 <= i < |texts| ==> texts[i] != ""
  }

  lemma {:induction false} TextsAreFull(extract: Extract, lines: seq<string>)
    ensures AllFull(Texts(extract, lines))
  {
    if lines != [] {
      TextsAreFull(extract, lines[..|lines| - 1]);
    }
  }

  lemma FullIsNoBlank(texts: seq<string>)
    requires AllFull(texts) && texts != []
    ensures Join(texts) != ""
  {
  }

  /** The text cut down where it has too many lines. */
  function Cut(t: string, limit: nat): string
    requires |SplitLines(t)| > 3 * limit
  {
    Join(SplitLines(t)[|SplitLines(t)| - 2 * limit..])
  }

  lemma CutDownIs(t: string, limit: nat)
    requires limit > 0
    ensures CutDown(t, limit) == if |SplitLines(t)| <= 3 * limit then t else Cut(t, limit)
  {
    var lines := SplitLines(t);
    if |lines| > 3 * limit {
      assert Newest(lines, 2 * limit) == lines[|lines| - 2 * limit..];
    }
  }

  lemma AppendedIs(buffer: string, more: seq<string>)
    requires more == [] || Join(more) != ""
    ensures Appended(buffer, more) == if more == [] then buffer else buffer + ['\n'] + Join(more)
  {
  }

  /** The text of a read: what the buffer held and then the newest of the texts that were found, cut down to the
      last lines if that is too long. */
  predicate Returns(kept: string, found: seq<string>, limit: nat, text: string) {
    var texts := if |found| <= limit then found else found[|found| - limit..];
    var whole := if texts == [] then kept else kept + ['\n'] + Join(texts);
    text == if |SplitLines(whole)| <= 3 * limit then whole else Cut(whole, limit)
  }

  lemma RolledReturns(kept: string, found: seq<string>, limit: nat)
    requires AllFull(found) && limit > 0
    ensures Returns(kept, found, limit, Rolled(kept, Newest(found, limit), limit))
  {
    var texts := Newest(found, limit);
    if texts != [] {
      FullIsNoBlank(texts);
    }
    AppendedIs(kept, texts);
    CutDownIs(Appended(kept, texts), limit);
  }

  /** The buffer after a read: emptied if the file has shrunk, and left as it is if there is nothing
      to take or a line raises. */
  function BufferAfter(o: Observer, offset: nat, buffer: string, file: string): string {
    var kept := if |file| < offset then "" else buffer;
    var chunk := Chunk(offset, file);
    if chunk == "" || AnyRaises(o.extract, Taken(chunk)) then kept
    else Rolled(kept, Added(o, Taken(chunk)), o.limit)
  }

  // ----- the observer --------------------------------------------------------------------

  class JsonlObserver {
    const extract: Extract
    var offset: nat
    var buffer: string

    constructor (e: Extract)
      ensures offset == 0 && buffer == "" && extract == e
    {
      extract, offset, buffer := e, 0, "";
    }

    method RFindNewline(raw: string) returns (k: int)
      ensures k == LastNewline(raw)
    {
      k := |raw| - 1;
      while k >= 0 && raw[k] != '\n'
        invariant -1 <= k < |raw| && LastNewline(raw) == LastNewline(raw[..k + 1])
      {
        assert raw[..k + 1][..k] == raw[..k];
        k := k - 1;
      }
    }

    /** The line loop of `read`; `None` where a line raises. */
    method ExtractTexts(taken: seq<string>) returns (parts: Option<seq<string>>)
      ensures parts == if AnyRaises(extract, taken) then None else Some(Texts(extract, taken))
    {
      var texts: seq<string> := [];
      for i := 0 to |taken|
        invariant texts == Texts(extract, taken[..i]) && !AnyRaises(extract, taken[..i])
      {
        assert taken[..i + 1] == taken[..i] + [taken[i]];
        TextsNext(extract, taken[..i], taken[i]);
        RaisesNext(extract, taken[..i], taken[i]);
        var event := extract(taken[i]);
        if event.Raises? {
          return None;
        }
        if event.Text? && event.text != "" {
          texts := texts + [event.text];
        }
      }
      assert taken[..|taken|] == taken;
      parts := Some(texts);
    }

    /** The part of `read` that reads the file and moves the offset. */
    method TakeChunk(file: string) returns (chunk: string)
      modifies this
      ensures offset == Next(old(offset), file) && chunk == Chunk(old(offset), file)
      ensures buffer == if |file| < old(offset) then "" else old(buffer)
    {
      if |file| < offset {
        offset := 0;
        buffer := "";
      }
      var raw := file[offset..];
      if IsBlank(raw) {
        return "";
      }
      var lastNewline := RFindNewline(raw);
      if lastNewline == -1 {
        return "";
      }
      offset := offset + lastNewline + 1;
      chunk := raw[..lastNewline + 1];
    }

    method Roll(newText: string, limit: nat)
      modifies `buffer
      ensures forall texts :: Join(texts) == newText ==> buffer == Rolled(old(buffer), texts, limit)
    {
      if newText != "" {
        buffer := buffer + ['\n'] + newText;
      }
      var lines := SplitLines(buffer);
      if |lines| > limit * 3 {
        buffer := Join(Newest(lines, limit * 2));
      }
    }

    /** `read`; `None` where it raises. A missing file is `None`. */
    method Read(file: Option<string>, limit: nat) returns (text: Option<string>)
      modifies this
      ensures file.None? ==> offset == old(offset) && buffer == old(buffer) && text == Some("")
      ensures file.Some? ==>
                var o, chunk := Observer(extract, limit), Chunk(old(offset), file.value);
                && offset == Next(old(offset), file.value)
                && buffer == BufferAfter(o, old(offset), old(buffer), file.value)
                && text == (if chunk == "" then Some("")
                            else if AnyRaises(extract, Taken(chunk)) then None
                            else Some(buffer))
      ensures file.Some? && limit > 0 && text.Some? && Chunk(old(offset), file.value) != "" ==>
                Returns(if |file.value| < old(offset) then "" else old(buffer),
                        Texts(extract, Taken(Chunk(old(offset), file.value))), limit, text.value)
    {
      if file.None? {
        return Some("");
      }
      var chunk := TakeChunk(file.value);
      if chunk == "" {
        return Some("");
      }
      var parts := ExtractTexts(SplitLines(Trim(chunk, SPACES)));
      if parts.None? {
        return None;
      }
      ghost var kept := buffer;
      Roll(Join(Newest(parts.value, limit)), limit);
      text := Some(buffer);
      if limit > 0 {
        TextsAreFull(extract, Taken(chunk));
        RolledReturns(kept, parts.value, limit);
      }
    }
  }
}
