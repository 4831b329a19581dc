/** Lines of text: what `splitlines` and `strip` make of them, and what a JSON parser sees. */
module TextLines {
  const NEWLINE: set<char> := {'\n'}

  /** Where `str.splitlines` breaks. */
  const BREAKS: set<char> :=
    {'\n', '\r', '\U{0B}', '\U{0C}', '\U{1C}', '\U{1D}', '\U{1E}', '\U{85}', '\U{2028}', '\U{2029}'}

  /** What a JSON parser skips around a value. */
  const JSON_SPACES: set<char> := {' ', '\t', '\n', '\r'}

  /** What `str.strip` removes and a line break or a JSON parser would remove as well. */
  const HARMLESS: set<char> := BREAKS + JSON_SPACES

  /** What `str.strip` removes. */
  const SPACES: set<char> :=
    HARMLESS
    + {'\U{1F}', '\U{A0}', '\U{1680}', '\U{202F}', '\U{205F}', '\U{3000}'}
    + {'\U{2000}', '\U{2001}', '\U{2002}', '\U{2003}', '\U{2004}', '\U{2005}', '\U{2006}', '\U{2007}', '\U{2008}',
       '\U{2009}', '\U{200A}'}

  /** `t` without what lies in `cs` at either end. */
  function Trim(t: string, cs: set<char>): string {
    if t == "" then ""
    else if t[0] in cs then Trim(t[1..], cs)
    else if t[|t| - 1] in cs then Trim(t[..|t| - 1], cs)
    else t
  }

  function JsonTrim(t: string): string {
    Trim(t, JSON_SPACES)
  }

  predicate Free(t: string, breaks: set<char>) {
    forall i :: 0 <= i < |t| ==> t[i] !in breaks
  }

  function FirstBreak(t: string): (k: nat)
    ensures k <= |t| && Free(t[..k], BREAKS) && (k < |t| ==> t[k] in BREAKS)
  {
    if t == "" || t[0] in BREAKS then 0
    else
      var k := FirstBreak(t[1..]);
      assert t[..k + 1] == [t[0]] + t[1..][..k];
      k + 1
  }

  function AfterBreak(t: string, k: nat): (rest: string)
    requires k < |t|
    ensures |rest| < |t|
  {
    t[if t[k] == '\r' && k + 1 < |t| && t[k + 1] == '\n' then k + 2 else k + 1..]
  }

  /** `str.splitlines`: "\r\n" is one break, and no empty line follows the last one. */
  function SplitLines(t: string): seq<string> {
    if t == "" then []
    else
      var k := FirstBreak(t);
      if k == |t| then [t] else [t[..k]] + SplitLines(AfterBreak(t, k))
  }

  /** One more character in front of the first piece. */
  function Prefixed(c: char, p: seq<string>): (r: seq<string>)
    requires p != []
    ensures r != []
  {
    [[c] + p[0]] + p[1..]
  }

  /** What lies between the breaks, empty pieces and all. */
  function Pieces(t: string, breaks: set<char>): (p: seq<string>)
    ensures p != []
  {
    if t == "" then [""]
    else
      var rest := Pieces(t[1..], breaks);
      if t[0] in breaks then [""] + rest else Prefixed(t[0], rest)
  }

  /** The newline-terminated lines. */
  function Lines(t: string): seq<string> {
    var p := Pieces(t, NEWLINE);
    p[..|p| - 1]
  }

  /** What a JSON parser sees of a line: nothing of a blank one, and nothing around its value. */
  function PayloadOf(line: string): seq<string> {
    if JsonTrim(line) == "" then [] else [JsonTrim(line)]
  }

  function Payload(lines: seq<string>): seq<string> {
    if lines == [] then [] else PayloadOf(lines[0]) + Payload(lines[1..])
  }

  function LastNewline(raw: string): (k: int)
    ensures -1 <= k < |raw| && (k >= 0 ==> raw[k] == '\n')
    ensures forall i :: k < i < |raw| ==> raw[i] != '\n'
  {
    if raw == "" then -1
    else if raw[|raw| - 1] == '\n' then |raw| - 1
    else LastNewline(raw[..|raw| - 1])
  }

  // ----- pieces --------------------------------------------------------------------------

  lemma {:induction false} FreeIsOnePiece(t: string, breaks: set<char>)
    requires Free(t, breaks)
    ensures Pieces(t, breaks) == [t]
  {
    if t != "" {
      FreeIsOnePiece(t[1..], breaks);
      assert [t[0]] + t[1..] == t;
    }
  }

  /** Joins the last piece of one text to the first of the next. */
  function Glue(p: seq<string>, q: seq<string>): seq<string>
    requires p != [] && q != []
  {
    p[..|p| - 1] + [p[|p| - 1] + q[0]] + q[1..]
  }

  lemma GlueAfter(s: string, p: seq<string>, q: seq<string>)
    requires p != [] && q != []
    ensures Glue([s] + p, q) == [s] + Glue(p, q)
  {
    assert ([s] + p)[..|p|] == [s] + p[..|p| - 1];
  }

  lemma GluePrefixed(c: char, p: seq<string>, q: seq<string>)
    requires p != [] && q != []
    ensures Glue(Prefixed(c, p), q) == Prefixed(c, Glue(p, q))
  {
    if |p| == 1 {
      assert ([c] + p[0]) + q[0] == [c] + (p[0] + q[0]);
      assert Glue(p, q)[1..] == q[1..];
    } else {
      assert Glue(p, q) == [p[0]] + Glue(p[1..], q) by {
        GlueAfter(p[0], p[1..], q);
        assert p == [p[0]] + p[1..];
      }
      GlueAfter([c] + p[0], p[1..], q);
    }
  }

  lemma {:induction false} PiecesOfJoin(a: string, b: string, breaks: set<char>)
    ensures Pieces(a + b, breaks) == Glue(Pieces(a, breaks), Pieces(b, breaks))
  {
    if a == "" {
      assert a + b == b;
      assert "" + Pieces(b, breaks)[0] == Pieces(b, breaks)[0];
    } else {
      PiecesOfJoin(a[1..], b, breaks);
      assert (a + b)[1..] == a[1..] + b;
      GlueAfter("", Pieces(a[1..], breaks), Pieces(b, breaks));
      GluePrefixed(a[0], Pieces(a[1..], breaks), Pieces(b, breaks));
    }
  }

  lemma GlueEmpty(p: seq<string>, q: seq<string>)
    requires p != []
    ensures Glue(p, [""] + q) == p + q
  {
    assert ([""] + q)[1..] == q && p[|p| - 1] + "" == p[|p| - 1];
  }

  lemma PiecesAfterBreak(c: char, b: string, breaks: set<char>)
    requires c in breaks
    ensures Pieces([c] + b, breaks) == [""] + Pieces(b, breaks)
  {
    assert ([c] + b)[1..] == b;
  }

  /** A break between two texts keeps their pieces apart. */
  lemma PiecesAcrossBreak(a: string, c: char, b: string, breaks: set<char>)
    requires c in breaks
    ensures Pieces(a + [c] + b, breaks) == Pieces(a, breaks) + Pieces(b, breaks)
  {
    assert a + [c] + b == a + ([c] + b);
    PiecesOfJoin(a, [c] + b, breaks);
    PiecesAfterBreak(c, b, breaks);
    GlueEmpty(Pieces(a, breaks), Pieces(b, breaks));
  }

  /** Texts that end in a newline add up line by line. */
  lemma LinesOfJoin(a: string, b: string)
    requires a == "" || a[|a| - 1] == '\n'
    ensures Lines(a + b) == Lines(a) + Lines(b)
  {
    if a == "" {
      assert a + b == b;
    } else {
      var init := a[..|a| - 1];
      assert a == init + ['\n'] + "" && a + b == init + ['\n'] + b;
      PiecesAcrossBreak(init, '\n', "", NEWLINE);
      PiecesAcrossBreak(init, '\n', b, NEWLINE);
    }
  }

  lemma {:induction false} PiecesAreFree(t: string, breaks: set<char>)
    ensures forall p :: p in Pieces(t, breaks) ==> Free(p, breaks)
  {
    if t != "" {
      PiecesAreFree(t[1..], breaks);
      var rest := Pieces(t[1..], breaks);
      assert rest[0] in rest;
      assert forall p :: p in rest[1..] ==> p in rest;
    }
  }

  // ----- whitespace ----------------------------------------------------------------------

  lemma {:induction false} TrimIgnoresTrailing(t: string, c: char, cs: set<char>)
    requires c in cs
    ensures Trim(t + [c], cs) == Trim(t, cs)
  {
    if t == "" {
      assert t + [c] == [c];
    } else if t[0] in cs {
      TrimIgnoresTrailing(t[1..], c, cs);
      assert (t + [c])[1..] == t[1..] + [c];
    } else {
      assert (t + [c])[..|t|] == t;
    }
  }

  lemma TrimIgnoresLeading(t: string, c: char, cs: set<char>)
    requires c in cs
    ensures Trim([c] + t, cs) == Trim(t, cs)
  {
    assert ([c] + t)[1..] == t;
  }

  lemma {:induction false} TrimTwice(t: string, cs: set<char>)
    ensures Trim(Trim(t, cs), cs) == Trim(t, cs)
    decreases |t|
  {
    if t != "" {
      if t[0] in cs {
        TrimTwice(t[1..], cs);
      } else if t[|t| - 1] in cs {
        TrimTwice(t[..|t| - 1], cs);
      }
    }
  }

  lemma {:induction false} TrimKeepsFree(t: string, cs: set<char>, breaks: set<char>)
    requires Free(t, breaks)
    ensures Free(Trim(t, cs), breaks)
    decreases |t|
  {
    if t != "" {
      if t[0] in cs {
        TrimKeepsFree(t[1..], cs, breaks);
      } else if t[|t| - 1] in cs {
        TrimKeepsFree(t[..|t| - 1], cs, breaks);
      }
    }
  }

  /** A text keeps a first character outside the class, and a trimmed one starts with such. */
  lemma {:induction false} TrimStarts(t: string, cs: set<char>)
    ensures Trim(t, cs) != "" ==> Trim(t, cs)[0] !in cs
    ensures t != "" && t[0] !in cs ==> Trim(t, cs) != "" && Trim(t, cs)[0] == t[0]
    ensures |Trim(t, cs)| <= |t|
    decreases |t|
  {
    if t != "" {
      if t[0] in cs {
        TrimStarts(t[1..], cs);
      } else if t[|t| - 1] in cs {
        TrimStarts(t[..|t| - 1], cs);
      }
    }
  }

  lemma PayloadOfFirst(line: string, rest: seq<string>)
    ensures Payload([line] + rest) == PayloadOf(line) + Payload(rest)
  {
    assert ([line] + rest)[1..] == rest;
  }

  lemma Regroup(x: seq<string>, y: seq<string>, z: seq<string>)
    ensures x + (y + z) == (x + y) + z
  {
  }

  lemma {:induction false} PayloadOfJoin(a: seq<string>, b: seq<string>)
    ensures Payload(a + b) == Payload(a) + Payload(b)
  {
    if a == [] {
      assert a + b == b && Payload(a) + Payload(b) == Payload(b);
    } else {
      var first, rest := a[0], a[1..];
      assert a == [first] + rest;
      Regroup([first], rest, b);
      PayloadOfFirst(first, rest);
      PayloadOfFirst(first, rest + b);
      PayloadOfJoin(rest, b);
      Regroup(PayloadOf(first), Payload(rest), Payload(b));
    }
  }

  lemma PayloadOfOne(line: string)
    ensures Payload([line]) == PayloadOf(line)
  {
    assert [line][1..] == [];
  }

  lemma PayloadOfLast(lines: seq<string>, last: string)
    requires lines != [] && lines[|lines| - 1] == last
    ensures Payload(lines) == Payload(lines[..|lines| - 1]) + PayloadOf(last)
  {
    var init := lines[..|lines| - 1];
    assert lines == init + [last];
    PayloadOfJoin(init, [last]);
    PayloadOfOne(last);
  }

  // ----- what splitlines makes of a text -------------------------------------------------

  /** The payload of a text broken at every break. */
  function Broken(t: string): seq<string> {
    Payload(Pieces(t, BREAKS))
  }

  lemma BrokenAcrossBreak(a: string, c: char, b: string)
    requires c in BREAKS
    ensures Broken(a + [c] + b) == Broken(a) + Broken(b)
  {
    PiecesAcrossBreak(a, c, b, BREAKS);
    PayloadOfJoin(Pieces(a, BREAKS), Pieces(b, BREAKS));
  }

  lemma BrokenOfFree(t: string)
    requires Free(t, BREAKS)
    ensures Broken(t) == PayloadOf(t)
  {
    FreeIsOnePiece(t, BREAKS);
    PayloadOfOne(t);
  }

  lemma BrokenIgnoresLeading(t: string, c: char)
    requires c in HARMLESS
    ensures Broken([c] + t) == Broken(t)
  {
    assert ([c] + t)[1..] == t;
    var rest := Pieces(t, BREAKS);
    if c !in BREAKS {
      TrimIgnoresLeading(rest[0], c, JSON_SPACES);
      assert Pieces([c] + t, BREAKS)[1..] == rest[1..];
    } else {
      PayloadOfJoin([""], rest);
    }
  }

  lemma BrokenIgnoresTrailing(t: string, c: char)
    requires c in HARMLESS
    ensures Broken(t + [c]) == Broken(t)
  {
    if c in BREAKS {
      BrokenAcrossBreak(t, c, "");
      assert t + [c] + "" == t + [c];
      BrokenOfFree("");
    } else {
      var p := Pieces(t, BREAKS);
      var init, last := p[..|p| - 1], p[|p| - 1];
      PiecesOfJoin(t, [c], BREAKS);
      FreeIsOnePiece([c], BREAKS);
      assert Pieces(t + [c], BREAKS) == init + [last + [c]];
      PayloadOfLast(p, last);
      PayloadOfLast(init + [last + [c]], last + [c]);
      TrimIgnoresTrailing(last, c, JSON_SPACES);
    }
  }

  lemma {:induction false} BrokenIgnoresTrim(t: string, cs: set<char>)
    requires cs <= HARMLESS
    ensures Broken(Trim(t, cs)) == Broken(t)
    decreases |t|
  {
    if t != "" {
      if t[0] in cs {
        BrokenIgnoresTrim(t[1..], cs);
        BrokenIgnoresLeading(t[1..], t[0]);
        assert t == [t[0]] + t[1..];
      } else if t[|t| - 1] in cs {
        BrokenIgnoresTrim(t[..|t| - 1], cs);
        BrokenIgnoresTrailing(t[..|t| - 1], t[|t| - 1]);
        assert t == t[..|t| - 1] + [t[|t| - 1]];
      }
    }
  }

  lemma BrokenAtBreak(t: string, k: nat)
    requires k < |t| && Free(t[..k], BREAKS) && t[k] in BREAKS
    ensures Broken(t) == PayloadOf(t[..k]) + Broken(AfterBreak(t, k))
  {
    var rest := t[k + 1..];
    assert t == t[..k] + [t[k]] + rest;
    BrokenAcrossBreak(t[..k], t[k], rest);
    BrokenOfFree(t[..k]);
    if t[k] == '\r' && k + 1 < |t| && t[k + 1] == '\n' {
      assert rest == ['\n'] + AfterBreak(t, k);
      BrokenIgnoresLeading(AfterBreak(t, k), '\n');
    }
  }

  lemma {:induction false} SplitLinesIsBroken(t: string)
    ensures Payload(SplitLines(t)) == Broken(t)
    decreases |t|
  {
    var k := FirstBreak(t);
    if t == "" {
      BrokenOfFree("");
    } else if k == |t| {
      assert t[..k] == t;
      BrokenOfFree(t);
      PayloadOfOne(t);
    } else {
      BrokenAtBreak(t, k);
      SplitLinesIsBroken(AfterBreak(t, k));
      PayloadOfFirst(t[..k], SplitLines(AfterBreak(t, k)));
    }
  }

  // ----- when nothing is torn ------------------------------------------------------------

  /** No line has a break inside, other than the newline at its end. */
  predicate Untorn(lines: seq<string>) {
    forall i :: 0 <= i < |lines| ==> Free(JsonTrim(lines[i]), BREAKS)
  }

  lemma BrokenOfUntornLine(line: string)
    requires Free(JsonTrim(line), BREAKS)
    ensures Broken(line) == PayloadOf(line)
  {
    BrokenIgnoresTrim(line, JSON_SPACES);
    BrokenOfFree(JsonTrim(line));
    TrimTwice(line, JSON_SPACES);
  }

  lemma {:induction false} BrokenOfUntorn(t: string)
    requires t == "" || t[|t| - 1] == '\n'
    requires Untorn(Lines(t))
    ensures Broken(t) == Payload(Lines(t))
    decreases |t|
  {
    if t == "" {
      BrokenOfFree("");
      assert Lines(t) == [];
    } else {
      var head, line := LastLine(t);
      assert Lines(head) == Lines(t)[..|Lines(t)| - 1];
      BrokenOfUntorn(head);
      PayloadOfLast(Lines(t), line);
      BrokenOfUntornLine(line);
      BrokenIgnoresTrailing(line, '\n');
      BrokenOfJoin(head, line + ['\n']);
    }
  }

  lemma LastLine(t: string) returns (head: string, line: string)
    requires t != "" && t[|t| - 1] == '\n'
    ensures t == head + (line + ['\n']) && (head == "" || head[|head| - 1] == '\n')
    ensures Lines(t) == Lines(head) + [line]
  {
    head, line := CutLast(t);
    LinesOfJoin(head, line + ['\n']);
    LineOf(line);
  }

  lemma CutLast(t: string) returns (head: string, line: string)
    requires t != "" && t[|t| - 1] == '\n'
    ensures t == head + (line + ['\n']) && (head == "" || head[|head| - 1] == '\n') && Free(line, NEWLINE)
  {
    var k := LastNewline(t[..|t| - 1]);
    CutAt(t, k + 1);
    head, line := t[..k + 1], t[k + 1..|t| - 1];
  }

  lemma CutAt(t: string, n: nat)
    requires n < |t| && t[|t| - 1] == '\n'
    ensures t == t[..n] + (t[n..|t| - 1] + ['\n'])
  {
    assert t[n..|t| - 1] + ['\n'] == t[n..];
  }

  lemma LineOf(line: string)
    requires Free(line, NEWLINE)
    ensures Lines(line + ['\n']) == [line]
  {
    PiecesAcrossBreak(line, '\n', "", NEWLINE);
    FreeIsOnePiece(line, NEWLINE);
    assert line + ['\n'] + "" == line + ['\n'];
  }

  lemma BrokenOfJoin(a: string, b: string)
    requires a == "" || a[|a| - 1] == '\n'
    ensures Broken(a + b) == Broken(a) + Broken(b)
  {
    if a == "" {
      assert a + b == b;
      BrokenOfFree("");
    } else {
      var init := a[..|a| - 1];
      assert a == init + ['\n'] && a + b == init + ['\n'] + b;
      BrokenAcrossBreak(init, '\n', b);
      BrokenIgnoresTrailing(init, '\n');
    }
  }

  lemma {:induction false} PayloadKeepsFree(lines: seq<string>)
    requires forall l :: l in lines ==> Free(l, BREAKS)
    ensures forall p :: p in Payload(lines) ==> Free(p, BREAKS)
  {
    if lines != [] {
      assert forall l :: l in lines[1..] ==> l in lines;
      TrimKeepsFree(lines[0], JSON_SPACES, BREAKS);
      PayloadKeepsFree(lines[1..]);
    }
  }

  lemma {:induction false} PayloadHasLine(lines: seq<string>, i: nat)
    requires i < |lines| && JsonTrim(lines[i]) != ""
    ensures JsonTrim(lines[i]) in Payload(lines)
  {
    if i > 0 {
      PayloadHasLine(lines[1..], i - 1);
    }
  }

  // ----- what strip takes away -----------------------------------------------------------

  function Weight(lines: seq<string>): nat {
    if lines == [] then 0 else Weight(lines[..|lines| - 1]) + |lines[|lines| - 1]|
  }

  lemma {:induction false} WeightOfJoin(a: seq<string>, b: seq<string>)
    ensures Weight(a + b) == Weight(a) + Weight(b)
  {
    if b == [] {
      assert a + b == a;
    } else {
      WeightOfJoin(a, b[..|b| - 1]);
      assert (a + b)[..|a + b| - 1] == a + b[..|b| - 1];
    }
  }

  lemma WeightOfOne(line: string)
    ensures Weight([line]) == |line|
  {
    assert Weight([line][..0]) == 0;
  }

  lemma WeightOfPayload(line: string)
    ensures Weight(PayloadOf(line)) == |JsonTrim(line)|
  {
    WeightOfOne(JsonTrim(line));
  }

  lemma TrimOfOne(c: char)
    requires c !in JSON_SPACES
    ensures JsonTrim([c]) == [c]
  {
  }

  lemma UntrimmedLeading(t: string, c: char)
    requires c !in JSON_SPACES && t != "" && t[|t| - 1] !in JSON_SPACES
    ensures |JsonTrim([c] + t)| > |JsonTrim(t)|
  {
    assert JsonTrim([c] + t) == [c] + t;
    TrimStarts(t, JSON_SPACES);
  }

  lemma {:induction false} LongerLeading(t: string, c: char)
    requires c !in JSON_SPACES
    ensures |JsonTrim([c] + t)| > |JsonTrim(t)|
    decreases |t|
  {
    if t == "" {
      assert [c] + t == [c];
      TrimOfOne(c);
    } else if t[|t| - 1] in JSON_SPACES {
      var init, d := t[..|t| - 1], t[|t| - 1];
      assert t == init + [d] && [c] + t == ([c] + init) + [d];
      LongerLeading(init, c);
      TrimIgnoresTrailing(init, d, JSON_SPACES);
      TrimIgnoresTrailing([c] + init, d, JSON_SPACES);
    } else {
      UntrimmedLeading(t, c);
    }
  }

  lemma {:induction false} LongerTrailing(t: string, c: char)
    requires c !in JSON_SPACES
    ensures |JsonTrim(t + [c])| > |JsonTrim(t)|
    decreases |t|
  {
    if t == "" {
      assert t + [c] == [c];
    } else if t[0] in JSON_SPACES {
      LongerTrailing(t[1..], c);
      TrimIgnoresLeading(t[1..], t[0], JSON_SPACES);
      TrimIgnoresLeading(t[1..] + [c], t[0], JSON_SPACES);
      assert t == [t[0]] + t[1..];
      assert t + [c] == [t[0]] + (t[1..] + [c]);
    } else {
      assert JsonTrim(t + [c]) == t + [c];
      TrimStarts(t, JSON_SPACES);
    }
  }

  lemma HeavierLeading(t: string, c: char)
    requires c !in HARMLESS
    ensures Weight(Broken([c] + t)) > Weight(Broken(t))
  {
    assert ([c] + t)[1..] == t;
    var p := Pieces(t, BREAKS);
    assert p == [p[0]] + p[1..];
    PayloadOfFirst(p[0], p[1..]);
    PayloadOfFirst([c] + p[0], p[1..]);
    WeightOfJoin(PayloadOf(p[0]), Payload(p[1..]));
    WeightOfJoin(PayloadOf([c] + p[0]), Payload(p[1..]));
    WeightOfPayload(p[0]);
    WeightOfPayload([c] + p[0]);
    LongerLeading(p[0], c);
  }

  lemma HeavierTrailing(t: string, c: char)
    requires c !in HARMLESS
    ensures Weight(Broken(t + [c])) > Weight(Broken(t))
  {
    var p := Pieces(t, BREAKS);
    var init, last := p[..|p| - 1], p[|p| - 1];
    PiecesOfJoin(t, [c], BREAKS);
    FreeIsOnePiece([c], BREAKS);
    assert Pieces(t + [c], BREAKS) == init + [last + [c]];
    PayloadOfLast(p, last);
    PayloadOfLast(init + [last + [c]], last + [c]);
    WeightOfJoin(Payload(init), PayloadOf(last));
    WeightOfJoin(Payload(init), PayloadOf(last + [c]));
    WeightOfPayload(last);
    WeightOfPayload(last + [c]);
    LongerTrailing(last, c);
  }

  /** `strip` removes nothing at the ends of a text that a JSON parser would stumble over. */
  predicate HarmlessEnds(t: string) {
    Trim(t, SPACES) == Trim(t, HARMLESS)
  }

  /** What `strip` takes away matters exactly where it is not harmless: then something of the
      payload is lost. */
  predicate LosesIff(t: string) {
    if HarmlessEnds(t) then Broken(Trim(t, SPACES)) == Broken(t)
    else Weight(Broken(Trim(t, SPACES))) < Weight(Broken(t))
  }

  lemma HarmfulLead(t: string)
    requires t != "" && t[0] in SPACES && t[0] !in HARMLESS
    ensures !HarmlessEnds(t)
  {
    TrimStarts(t, HARMLESS);
    TrimStarts(t, SPACES);
  }

  lemma HarmfulTail(t: string)
    requires t != "" && t[0] !in SPACES && t[|t| - 1] in SPACES && t[|t| - 1] !in HARMLESS
    ensures !HarmlessEnds(t)
  {
    TrimStarts(t[..|t| - 1], SPACES);
    assert t[0] !in HARMLESS;
    assert Trim(t, HARMLESS) == t;
  }

  lemma LeadLosesIff(t: string, c: char)
    requires c in SPACES && LosesIff(t)
    ensures LosesIff([c] + t)
  {
    TrimIgnoresLeading(t, c, SPACES);
    if c in HARMLESS {
      TrimIgnoresLeading(t, c, HARMLESS);
      BrokenIgnoresLeading(t, c);
    } else {
      HarmfulLead([c] + t);
      HeavierLeading(t, c);
    }
  }

  lemma TailLosesIff(t: string, c: char)
    requires t != "" && t[0] !in SPACES && c in SPACES && LosesIff(t)
    ensures LosesIff(t + [c])
  {
    TrimIgnoresTrailing(t, c, SPACES);
    if c in HARMLESS {
      TrimIgnoresTrailing(t, c, HARMLESS);
      BrokenIgnoresTrailing(t, c);
    } else {
      HarmfulTail(t + [c]);
      HeavierTrailing(t, c);
    }
  }

  lemma LosesIffFromRest(t: string)
    requires t != "" && t[0] in SPACES
    ensures LosesIff(t[1..]) ==> LosesIff(t)
  {
    assert t == [t[0]] + t[1..];
    if LosesIff(t[1..]) {
      LeadLosesIff(t[1..], t[0]);
    }
  }

  lemma LosesIffFromFront(t: string)
    requires t != "" && t[0] !in SPACES && t[|t| - 1] in SPACES
    ensures LosesIff(t[..|t| - 1]) ==> LosesIff(t)
  {
    assert t == t[..|t| - 1] + [t[|t| - 1]];
    if LosesIff(t[..|t| - 1]) {
      TailLosesIff(t[..|t| - 1], t[|t| - 1]);
    }
  }

  lemma NothingLost(t: string)
    requires t == "" || (t[0] !in SPACES && t[|t| - 1] !in SPACES)
    ensures LosesIff(t)
  {
    if t != "" {
      NothingTrimmed(t);
    }
  }

  lemma {:induction false} StripLosesIff(t: string)
    ensures LosesIff(t)
    decreases |t|
  {
    if t != "" && t[0] in SPACES {
      StripLosesIff(t[1..]);
      LosesIffFromRest(t);
    } else if t != "" && t[|t| - 1] in SPACES {
      StripLosesIff(t[..|t| - 1]);
      LosesIffFromFront(t);
    } else {
      NothingLost(t);
    }
  }

  lemma NothingTrimmed(t: string)
    requires t != "" && t[0] !in SPACES && t[|t| - 1] !in SPACES
    ensures Trim(t, SPACES) == t == Trim(t, HARMLESS)
  {
    assert t[0] !in HARMLESS && t[|t| - 1] !in HARMLESS;
  }
}
