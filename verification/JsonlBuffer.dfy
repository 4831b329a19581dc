/** The rolling buffer of the transcript reader over all its reads (supervisor/adapters/jsonl_observer.py:93-103):
    it ends as all the text does that the reads have found so far. */
module JsonlBuffer {
  import opened TextLines
  import opened JsonlTail

  // ----- visible lines -------------------------------------------------------------------

  function Visible(lines: seq<string>): seq<string> {
    if lines == [] then []
    else (if lines[0] == "" then [] else [lines[0]]) + Visible(lines[1..])
  }

  lemma {:induction false} VisibleOfJoin(a: seq<string>, b: seq<string>)
    ensures Visible(a + b) == Visible(a) + Visible(b)
  {
    if a == [] {
      assert a + b == b;
    } else {
      VisibleOfJoin(a[1..], b);
      assert (a + b)[0] == a[0] && (a + b)[1..] == a[1..] + b;
      Regroup(if a[0] == "" then [] else [a[0]], Visible(a[1..]), Visible(b));
    }
  }

  lemma SurvivingIsVisible(lines: seq<string>)
    ensures Visible(Surviving(lines)) == Visible(lines)
  {
    if lines != [] && lines[|lines| - 1] == "" {
      VisibleOfJoin(lines[..|lines| - 1], [""]);
      assert lines == lines[..|lines| - 1] + [""];
    }
  }

  lemma FirstBreakIs(t: string, k: nat)
    requires k < |t| && t[k] in BREAKS && forall i :: 0 <= i < k ==> t[i] !in BREAKS
    ensures FirstBreak(t) == k
  {
  }

  lemma BreaksFirst(a: string, b: string)
    requires FirstBreak(a) < |a|
    ensures FirstBreak(a + ['\n'] + b) == FirstBreak(a) && (a + ['\n'] + b)[..FirstBreak(a)] == a[..FirstBreak(a)]
  {
    var t, k := a + ['\n'] + b, FirstBreak(a);
    forall i | 0 <= i < k
      ensures t[i] !in BREAKS
    {
      assert t[i] == a[..k][i];
    }
    assert t[k] == a[k];
    FirstBreakIs(t, k);
  }

  lemma RestGoesOn(a: string, b: string, k: nat)
    requires k < |a|
    ensures AfterBreak(a + ['\n'] + b, k)
         == if a[k] == '\r' && k + 1 == |a| then b else AfterBreak(a, k) + ['\n'] + b
  {
    var t := a + ['\n'] + b;
    assert t[k] == a[k];
    if k + 1 < |a| {
      assert t[k + 1] == a[k + 1];
      assert t[k + 1..] == a[k + 1..] + ['\n'] + b;
      assert t[k + 2..] == a[k + 2..] + ['\n'] + b;
    } else {
      assert t[k + 1] == '\n';
      assert t[k + 1..] == a[k + 1..] + ['\n'] + b;
      assert t[k + 2..] == b;
    }
  }

  /** How `splitlines` sees a text that goes on after a newline: its lines and then those of the rest, perhaps
      with an empty one in between if there is nothing before the newline, or a break. */
  predicate Continues(lines: seq<string>, a: string, b: string) {
    || lines == SplitLines(a) + SplitLines(b)
    || ((a == "" || a[|a| - 1] in BREAKS) && lines == SplitLines(a) + [""] + SplitLines(b))
  }

  lemma ContinuesBefore(line: string, lines: seq<string>, rest: string, a: string, b: string)
    requires Continues(lines, rest, b) && SplitLines(a) == [line] + SplitLines(rest)
    requires a != "" && (if rest == "" then a[|a| - 1] in BREAKS else rest[|rest| - 1] == a[|a| - 1])
    ensures Continues([line] + lines, a, b)
  {
    var x, y := SplitLines(rest), SplitLines(b);
    Regroup([line], x, y);
    Regroup([line], x + [""], y);
    Regroup([line], x, [""]);
  }

  lemma {:induction false} SplitAcross(a: string, b: string)
    ensures Continues(SplitLines(a + ['\n'] + b), a, b)
    decreases |a|
  {
    var t, k := a + ['\n'] + b, FirstBreak(a);
    if k == |a| {
      assert a[..k] == a;
      LineThenRest(a, b);
      OneLineOrNone(a);
      assert [""] + SplitLines(b) == [] + [""] + SplitLines(b);
    } else {
      BreaksFirst(a, b);
      RestGoesOn(a, b, k);
      var rest := AfterBreak(a, k);
      assert SplitLines(t) == [a[..k]] + SplitLines(AfterBreak(t, k));
      assert SplitLines(a) == [a[..k]] + SplitLines(rest);
      if a[k] == '\r' && k + 1 == |a| {
        assert rest == "" && SplitLines(rest) == [];
        assert [a[..k]] + [] == [a[..k]];
      } else {
        SplitAcross(rest, b);
        LastOfRest(a, k);
        ContinuesBefore(a[..k], SplitLines(rest + ['\n'] + b), rest, a, b);
      }
    }
  }

  lemma OneLineOrNone(a: string)
    requires Free(a, BREAKS)
    ensures SplitLines(a) == if a == "" then [] else [a]
  {
    if a != "" {
      OneLine(a);
    }
  }

  lemma LastOfRest(a: string, k: nat)
    requires k < |a| && a[k] in BREAKS
    ensures var rest := AfterBreak(a, k);
            if rest == "" then a[|a| - 1] in BREAKS else rest[|rest| - 1] == a[|a| - 1]
  {
  }

  lemma VisibleAcross(a: string, b: string)
    ensures Visible(SplitLines(a + ['\n'] + b)) == Visible(SplitLines(a)) + Visible(SplitLines(b))
    ensures |SplitLines(a + ['\n'] + b)| >= |SplitLines(a)|
  {
    var lines := SplitLines(a);
    SplitAcross(a, b);
    VisibleOfJoin(lines, SplitLines(b));
    VisibleOfJoin(lines + [""], SplitLines(b));
    VisibleOfJoin(lines, [""]);
    assert Visible(lines) + [] == Visible(lines);
  }

  /** All texts so far, each on a new line. */
  function AllText(texts: seq<string>): string {
    if texts == [] then "" else ['\n'] + Join(texts)
  }

  lemma {:induction false} JoinOfBoth(a: seq<string>, b: seq<string>)
    requires a != [] && b != []
    ensures Join(a + b) == Join(a) + ['\n'] + Join(b)
  {
    if |a| == 1 {
      assert a + b == [a[0]] + b;
    } else {
      JoinOfBoth(a[1..], b);
      assert (a + b)[1..] == a[1..] + b;
    }
  }

  lemma AllTextNext(texts: seq<string>, more: seq<string>)
    requires more != []
    ensures AllText(texts + more) == AllText(texts) + ['\n'] + Join(more)
  {
    if texts == [] {
      assert texts + more == more;
    } else {
      JoinOfBoth(texts, more);
    }
  }

  predicate EndsWith(whole: seq<string>, part: seq<string>) {
    |part| <= |whole| && whole[|whole| - |part|..] == part
  }

  lemma EndsWithMore(whole: seq<string>, part: seq<string>, more: seq<string>)
    requires EndsWith(whole, part)
    ensures EndsWith(whole + more, part + more)
  {
    assert (whole + more)[|whole| - |part|..] == whole[|whole| - |part|..] + more;
  }

  lemma EndsWithin(whole: seq<string>, part: seq<string>, n: nat)
    requires EndsWith(whole, part) && n <= |part|
    ensures EndsWith(whole, part[|part| - n..])
  {
    assert whole[|whole| - n..] == whole[|whole| - |part|..][|part| - n..];
  }

  /** The buffer ends as all the text there was does, empty lines aside: it is all of it, or has almost twice
      as many lines as a read keeps texts. */
  predicate KeepsTail(buffer: string, texts: seq<string>, limit: nat) {
    && |SplitLines(buffer)| <= 3 * limit
    && EndsWith(Visible(SplitLines(AllText(texts))), Visible(SplitLines(buffer)))
    && (buffer == AllText(texts) || |SplitLines(buffer)| >= 2 * limit - 1)
  }

  lemma CutKeepsTail(t: string, whole: seq<string>, limit: nat)
    requires limit > 0 && |SplitLines(t)| > 3 * limit && EndsWith(whole, Visible(SplitLines(t)))
    ensures 2 * limit - 1 <= |SplitLines(Cut(t, limit))| <= 2 * limit
    ensures EndsWith(whole, Visible(SplitLines(Cut(t, limit))))
  {
    var lines := SplitLines(t);
    var head, tail := lines[..|lines| - 2 * limit], lines[|lines| - 2 * limit..];
    SplitAfterCut(t, 2 * limit);
    SurvivingIsVisible(tail);
    VisibleOfJoin(head, tail);
    assert lines == head + tail;
    EndsWithin(whole, Visible(lines), |Visible(tail)|);
    assert Visible(lines)[|Visible(head)|..] == Visible(tail);
  }

  lemma CutDownKeepsTail(t: string, texts: seq<string>, limit: nat)
    requires limit > 0 && EndsWith(Visible(SplitLines(AllText(texts))), Visible(SplitLines(t)))
    requires t == AllText(texts) || |SplitLines(t)| >= 2 * limit - 1
    ensures KeepsTail(CutDown(t, limit), texts, limit)
  {
    CutDownIs(t, limit);
    if |SplitLines(t)| > 3 * limit {
      CutKeepsTail(t, Visible(SplitLines(AllText(texts))), limit);
    }
  }

  lemma LongerKeepsTail(buffer: string, texts: seq<string>, more: seq<string>, limit: nat)
    requires KeepsTail(buffer, texts, limit) && more != []
    ensures var appended, all := buffer + ['\n'] + Join(more), AllText(texts + more);
            && EndsWith(Visible(SplitLines(all)), Visible(SplitLines(appended)))
            && (appended == all || |SplitLines(appended)| >= 2 * limit - 1)
  {
    AllTextNext(texts, more);
    VisibleAcross(buffer, Join(more));
    VisibleAcross(AllText(texts), Join(more));
    EndsWithMore(Visible(SplitLines(AllText(texts))), Visible(SplitLines(buffer)), Visible(SplitLines(Join(more))));
  }

  lemma RollKeepsTail(buffer: string, texts: seq<string>, more: seq<string>, limit: nat)
    requires limit > 0 && KeepsTail(buffer, texts, limit) && AllFull(more)
    ensures KeepsTail(Rolled(buffer, more, limit), texts + more, limit)
  {
    if more == [] {
      AppendedIs(buffer, more);
      assert texts + more == texts;
    } else {
      FullIsNoBlank(more);
      AppendedIs(buffer, more);
      LongerKeepsTail(buffer, texts, more, limit);
    }
    CutDownKeepsTail(Appended(buffer, more), texts + more, limit);
  }

  // ----- texts that do not end in a break ------------------------------------------------

  predicate Sealed(t: string) {
    t != "" && t[|t| - 1] !in BREAKS
  }

  predicate AllSealed(texts: seq<string>) {
    forall i :: 0 <= i < |texts| ==> Sealed(texts[i])
  }

  lemma {:induction false} JoinIsSealed(texts: seq<string>)
    requires AllSealed(texts) && texts != []
    ensures Sealed(Join(texts))
  {
    if |texts| > 1 {
      JoinIsSealed(texts[1..]);
    }
  }

  lemma {:induction false} LastLineOfSealed(t: string)
    requires Sealed(t)
    ensures var lines := SplitLines(t); lines != [] && Sealed(lines[|lines| - 1])
    decreases |t|
  {
    var k := FirstBreak(t);
    if k < |t| {
      LastLineOfSealed(AfterBreak(t, k));
    }
  }

  /** The buffer has the last lines of all the text there was: all of them, or at least twice as many as a read
      keeps texts. */
  predicate IsTail(buffer: string, texts: seq<string>, limit: nat) {
    && |SplitLines(buffer)| <= 3 * limit
    && EndsWith(SplitLines(AllText(texts)), SplitLines(buffer))
    && (buffer == "" || Sealed(buffer))
    && (buffer == AllText(texts) || |SplitLines(buffer)| >= 2 * limit)
  }

  lemma {:induction false} JoinEndsSealed(lines: seq<string>)
    requires lines != [] && Sealed(lines[|lines| - 1])
    ensures Sealed(Join(lines))
  {
    if |lines| > 1 {
      JoinEndsSealed(lines[1..]);
    }
  }

  lemma SealedSurvives(lines: seq<string>)
    requires lines != [] && Sealed(lines[|lines| - 1])
    ensures Surviving(lines) == lines
  {
  }

  lemma TailOfSealed(t: string, n: nat) returns (tail: seq<string>)
    requires Sealed(t) && 0 < n <= |SplitLines(t)|
    ensures tail == SplitLines(t)[|SplitLines(t)| - n..] && |tail| == n
    ensures SplitLines(Join(tail)) == tail && Sealed(Join(tail))
  {
    var lines := SplitLines(t);
    tail := lines[|lines| - n..];
    LastLineOfSealed(t);
    assert tail[|tail| - 1] == lines[|lines| - 1];
    SplitAfterCut(t, n);
    SealedSurvives(tail);
    JoinEndsSealed(tail);
  }

  lemma CutIsTail(t: string, whole: seq<string>, limit: nat)
    requires limit > 0 && |SplitLines(t)| > 3 * limit && EndsWith(whole, SplitLines(t)) && Sealed(t)
    ensures |SplitLines(Cut(t, limit))| == 2 * limit && Sealed(Cut(t, limit))
    ensures EndsWith(whole, SplitLines(Cut(t, limit)))
  {
    var tail := TailOfSealed(t, 2 * limit);
    EndsWithin(whole, SplitLines(t), 2 * limit);
    assert Cut(t, limit) == Join(tail);
  }

  lemma CutDownIsTail(t: string, texts: seq<string>, limit: nat)
    requires limit > 0 && EndsWith(SplitLines(AllText(texts)), SplitLines(t)) && (t == "" || Sealed(t))
    requires t == AllText(texts) || |SplitLines(t)| >= 2 * limit
    ensures IsTail(CutDown(t, limit), texts, limit)
  {
    CutDownIs(t, limit);
    if |SplitLines(t)| > 3 * limit {
      assert SplitLines("") == [];
      CutIsTail(t, SplitLines(AllText(texts)), limit);
    }
  }

  lemma SealedGoesOn(a: string, b: string)
    requires Sealed(a) && Sealed(b)
    ensures SplitLines(a + ['\n'] + b) == SplitLines(a) + SplitLines(b) && Sealed(a + ['\n'] + b)
  {
    SplitAcross(a, b);
  }

  lemma AllTextIsSealed(texts: seq<string>)
    requires AllSealed(texts) && texts != []
    ensures Sealed(AllText(texts))
  {
    JoinIsSealed(texts);
  }

  lemma LongerIsTail(buffer: string, texts: seq<string>, more: seq<string>, limit: nat)
    requires limit > 0 && IsTail(buffer, texts, limit) && AllSealed(texts) && AllSealed(more) && more != []
    ensures var appended, all := buffer + ['\n'] + Join(more), AllText(texts + more);
            && EndsWith(SplitLines(all), SplitLines(appended)) && Sealed(appended)
            && (appended == all || |SplitLines(appended)| >= 2 * limit)
  {
    JoinIsSealed(more);
    AllTextNext(texts, more);
    if buffer != AllText(texts) {
      AllTextIsSealed(texts);
      SealedGoesOn(buffer, Join(more));
      SealedGoesOn(AllText(texts), Join(more));
      EndsWithMore(SplitLines(AllText(texts)), SplitLines(buffer), SplitLines(Join(more)));
    }
  }

  lemma RollIsTail(buffer: string, texts: seq<string>, more: seq<string>, limit: nat)
    requires limit > 0 && IsTail(buffer, texts, limit) && AllSealed(texts) && AllSealed(more)
    ensures IsTail(Rolled(buffer, more, limit), texts + more, limit)
  {
    if more == [] {
      AppendedIs(buffer, more);
      assert texts + more == texts;
    } else {
      JoinIsSealed(more);
      AppendedIs(buffer, more);
      LongerIsTail(buffer, texts, more, limit);
    }
    CutDownIsTail(Appended(buffer, more), texts + more, limit);
  }

  // ----- over every growing file ---------------------------------------------------------

  /** The buffers of a fresh reader on these files, read by read. */
  ghost predicate IsBuffering(o: Observer, files: seq<string>, rs: seq<Reading>, bs: seq<string>) {
    && |bs| == |files| + 1 == |rs| && bs[0] == ""
    && forall i {:trigger BufferAfter(o, rs[i].offset, bs[i], files[i])} ::
         0 <= i < |files| ==> bs[i + 1] == BufferAfter(o, rs[i].offset, bs[i], files[i])
  }

  lemma OffsetIsInside(o: Observer, r: Reading, file: string)
    ensures ReadOnce(o, r, file).offset <= |file|
  {
  }

  lemma OffsetIsInsideFile(o: Observer, files: seq<string>, rs: seq<Reading>, n: nat)
    requires IsReading(o, files, rs) && n < |files|
    ensures rs[n + 1].offset <= |files[n]|
  {
    NthRead(o, files, rs, n);
    OffsetIsInside(o, rs[n], files[n]);
  }

  lemma FilesGrowLonger(files: seq<string>, m: nat, n: nat)
    requires Grows(files) && n == m + 1 < |files|
    ensures |files[m]| <= |files[n]|
  {
    NthFile(files, n);
  }

  lemma OffsetFits(o: Observer, files: seq<string>, rs: seq<Reading>, n: nat)
    requires Grows(files) && IsReading(o, files, rs) && n < |files|
    ensures rs[n].offset <= |files[n]|
  {
    if n > 0 {
      var m: nat := n - 1;
      OffsetIsInsideFile(o, files, rs, m);
      FilesGrowLonger(files, m, n);
    }
  }

  lemma ReadAdds(o: Observer, r: Reading, buffer: string, file: string) returns (more: seq<string>)
    requires r.offset <= |file| && |SplitLines(buffer)| <= 3 * o.limit
    ensures AllFull(more) && ReadOnce(o, r, file).added == r.added + more
    ensures BufferAfter(o, r.offset, buffer, file) == Rolled(buffer, more, o.limit)
  {
    var lines := Taken(Chunk(r.offset, file));
    more := Added(o, lines);
    TextsAreFull(o.extract, lines);
    if more == [] {
      AppendedIs(buffer, more);
    }
    assert Taken("") == [] && Texts(o.extract, []) == [];
  }

  lemma NextRead(o: Observer, files: seq<string>, rs: seq<Reading>, bs: seq<string>, m: nat)
    returns (more: seq<string>)
    requires Grows(files) && IsReading(o, files, rs) && IsBuffering(o, files, rs, bs) && m < |files|
    requires |SplitLines(bs[m])| <= 3 * o.limit
    ensures AllFull(more) && rs[m + 1].added == rs[m].added + more && bs[m + 1] == Rolled(bs[m], more, o.limit)
  {
    OffsetFits(o, files, rs, m);
    more := ReadAdds(o, rs[m], bs[m], files[m]);
    NthRead(o, files, rs, m);
    assert bs[m + 1] == BufferAfter(o, rs[m].offset, bs[m], files[m]);
  }

  lemma NothingIsKept(limit: nat)
    ensures KeepsTail("", [], limit) && IsTail("", [], limit)
  {
    assert SplitLines("") == [];
  }

  lemma NextKeepsTail(o: Observer, files: seq<string>, rs: seq<Reading>, bs: seq<string>, m: nat, n: nat)
    requires Grows(files) && IsReading(o, files, rs) && IsBuffering(o, files, rs, bs) && n == m + 1 < |bs|
    requires o.limit > 0
    ensures KeepsTail(bs[m], rs[m].added, o.limit) ==> KeepsTail(bs[n], rs[n].added, o.limit)
  {
    if KeepsTail(bs[m], rs[m].added, o.limit) {
      var more := NextRead(o, files, rs, bs, m);
      RollKeepsTail(bs[m], rs[m].added, more, o.limit);
    }
  }

  /** However the file grows, the buffer ends as all the text does that the reads have found so far: its lines
      that are not empty are the last of those, in order; and it is all of the text, or has at least
      2 * limit - 1 lines. It never has more than 3 * limit. */
  lemma {:induction false} BufferEndsLikeTheText(o: Observer, files: seq<string>, rs: seq<Reading>, bs: seq<string>,
                                                 n: nat)
    requires Grows(files) && IsReading(o, files, rs) && IsBuffering(o, files, rs, bs) && n < |bs|
    requires o.limit > 0
    ensures KeepsTail(bs[n], rs[n].added, o.limit)
  {
    if n == 0 {
      NothingIsKept(o.limit);
    } else {
      var m: nat := n - 1;
      BufferEndsLikeTheText(o, files, rs, bs, m);
      NextKeepsTail(o, files, rs, bs, m, n);
    }
  }

  lemma SealedParts(a: seq<string>, b: seq<string>)
    requires AllSealed(a + b)
    ensures AllSealed(a) && AllSealed(b)
  {
    forall i | 0 <= i < |a|
      ensures Sealed(a[i])
    {
      assert (a + b)[i] == a[i];
    }
    forall i | 0 <= i < |b|
      ensures Sealed(b[i])
    {
      assert (a + b)[|a| + i] == b[i];
    }
  }

  lemma NextIsTail(o: Observer, files: seq<string>, rs: seq<Reading>, bs: seq<string>, m: nat, n: nat)
    requires Grows(files) && IsReading(o, files, rs) && IsBuffering(o, files, rs, bs) && n == m + 1 < |bs|
    requires o.limit > 0 && |SplitLines(bs[m])| <= 3 * o.limit && AllSealed(rs[n].added)
    ensures AllSealed(rs[m].added)
    ensures IsTail(bs[m], rs[m].added, o.limit) ==> IsTail(bs[n], rs[n].added, o.limit)
  {
    var more := NextRead(o, files, rs, bs, m);
    SealedParts(rs[m].added, more);
    if IsTail(bs[m], rs[m].added, o.limit) {
      RollIsTail(bs[m], rs[m].added, more, o.limit);
    }
  }

  /** Where no text that was found ends in a line break, all lines count: the buffer has the last lines of the
      text, in order, all of them or at least 2 * limit. */
  lemma {:induction false} BufferIsTheTail(o: Observer, files: seq<string>, rs: seq<Reading>, bs: seq<string>, n: nat)
    requires Grows(files) && IsReading(o, files, rs) && IsBuffering(o, files, rs, bs) && n < |bs|
    requires o.limit > 0 && AllSealed(rs[n].added)
    ensures IsTail(bs[n], rs[n].added, o.limit)
  {
    if n == 0 {
      NothingIsKept(o.limit);
    } else {
      var m: nat := n - 1;
      BufferEndsLikeTheText(o, files, rs, bs, m);
      NextIsTail(o, files, rs, bs, m, n);
      BufferIsTheTail(o, files, rs, bs, m);
    }
  }

  /** A file that has shrunk is read as by a fresh reader, and the buffer starts over. */
  lemma ShrunkFileIsReadAnew(o: Observer, r: Reading, buffer: string, file: string)
    requires |file| < r.offset
    ensures var anew := ReadOnce(o, START, file);
            && ReadOnce(o, r, file) == Reading(anew.offset, r.taken + anew.taken, r.added + anew.added)
            && BufferAfter(o, r.offset, buffer, file) == BufferAfter(o, 0, "", file)
  {
    var lines := Taken(Chunk(0, file));
    assert [] + lines == lines && [] + Added(o, lines) == Added(o, lines);
    assert Chunk(r.offset, file) == Chunk(0, file);
  }
}
