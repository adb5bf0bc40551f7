/** The lyrics helpers of the web client (vercel-serverless/frontend/src/services/lyrics.ts): the
    parser of time-tagged lines `[mm:ss.xx] text`, the search for the line being sung, and the choice
    of the search result whose duration fits the track.

    Times are integer hundredths of a second: a tag `[m:s.c]` stands for `m*60 + s + c/100` seconds,
    which is `m*6000 + s*100 + c` hundredths whatever the number of digits of `c`. */
module Lyrics {
  import opened Common

  datatype SyncedLine = SyncedLine(time: nat, text: string)

  // ---------------------------------------------------------------------------------------------
  // Characters

  predicate IsDigit(c: char) {
    '0' <= c <= '9'
  }

  /** JavaScript's `\s` and the characters `trim` removes: white space and line terminators. */
  predicate IsJsSpace(c: char) {
    c == '\t' || c == '\n' || c == '\U{B}' || c == '\U{C}' || c == '\r' || c == ' ' || c == '\U{A0}'
    || c == '\U{1680}' || ('\U{2000}' <= c <= '\U{200A}') || c == '\U{2028}' || c == '\U{2029}'
    || c == '\U{202F}' || c == '\U{205F}' || c == '\U{3000}' || c == '\U{FEFF}'
  }

  /** The characters a regular expression's `.` does not match. */
  predicate IsLineTerminator(c: char) {
    c == '\n' || c == '\r' || c == '\U{2028}' || c == '\U{2029}'
  }

  predicate HasLineTerminator(s: string) {
    exists k :: 0 <= k < |s| && IsLineTerminator(s[k])
  }

  /** `line.trim()` is not empty. */
  predicate NonBlank(s: string) {
    exists k :: 0 <= k < |s| && !IsJsSpace(s[k])
  }

  /** The length of the longest run of digits starting at `i`. */
  function DigitRun(s: string, i: nat): (n: nat)
    requires i <= |s|
    ensures i + n <= |s|
    ensures forall k :: i <= k < i + n ==> IsDigit(s[k])
    ensures i + n == |s| || !IsDigit(s[i + n])
    decreases |s| - i
  {
    if i < |s| && IsDigit(s[i]) then 1 + DigitRun(s, i + 1) else 0
  }

  /** The length of the longest run of white space starting at `i`. */
  function SpaceRun(s: string, i: nat): (n: nat)
    requires i <= |s|
    ensures i + n <= |s|
    ensures forall k :: i <= k < i + n ==> IsJsSpace(s[k])
    ensures i + n == |s| || !IsJsSpace(s[i + n])
    decreases |s| - i
  {
    if i < |s| && IsJsSpace(s[i]) then 1 + SpaceRun(s, i + 1) else 0
  }

  /** `parseInt(digits, 10)`. */
  function DigitsValue(s: string): nat {
    if s == [] then 0 else 10 * DigitsValue(s[..|s| - 1]) + ((s[|s| - 1] as int - '0' as int) % 10)
  }

  // ---------------------------------------------------------------------------------------------
  // The tag pattern

  /** The groups of a match: minutes, seconds, centiseconds and the text. */
  datatype Tag = Tag(minutes: nat, seconds: nat, centis: nat, text: string)

  /** The group `(\d+)` at the start of `t` when the delimiter follows it: its value and what
      follows the delimiter. A `\d+` can only take the whole run of digits, since the next character
      must be the delimiter. */
  function Group(t: string, delim: char): (r: Option<(nat, string)>)
    ensures r.Some? ==> |r.value.1| < |t|
  {
    var n := DigitRun(t, 0);
    if n > 0 && n < |t| && t[n] == delim then Some((DigitsValue(t[..n]), t[n + 1..])) else None
  }

  /** Whether the pattern `\[(\d+):(\d+)\.(\d+)\]\s*(.*)$` matches at the start of `t`. After the
      tag, `\s*` takes all white space, and `(.*)$` must take the rest, which cannot contain a line
      terminator (giving white space back to `.*` cannot help: `.*` would then have to match more). */
  function MatchHere(t: string): Option<Tag> {
    if t == [] || t[0] != '[' then None
    else
      match Group(t[1..], ':')
      case None => None
      case Some((mins, t1)) =>
        match Group(t1, '.')
        case None => None
        case Some((secs, t2)) =>
          match Group(t2, ']')
          case None => None
          case Some((centis, t3)) =>
            var rest := t3[SpaceRun(t3, 0)..];
            if HasLineTerminator(rest) then None else Some(Tag(mins, secs, centis, rest))
  }

  /** Whether the pattern matches at position `p` of `s`. */
  function MatchAt(s: string, p: nat): Option<Tag>
    requires p <= |s|
  {
    MatchHere(s[p..])
  }

  /** The unanchored search: the first position from `p` on at which the pattern matches, or -1. */
  function FindMatch(s: string, p: nat): (r: int)
    requires p <= |s|
    ensures r == -1 || p <= r < |s|
    decreases |s| - p
  {
    if p == |s| then -1 else if MatchAt(s, p).Some? then p else FindMatch(s, p + 1)
  }

  /** The search finds the first position where the pattern matches, or there is none. */
  lemma {:induction false} FindMatchSpec(s: string, p: nat)
    requires p <= |s|
    ensures FindMatch(s, p) >= 0 ==>
      MatchAt(s, FindMatch(s, p)).Some? && forall q :: p <= q < FindMatch(s, p) ==> MatchAt(s, q).None?
    ensures FindMatch(s, p) == -1 ==> forall q :: p <= q <= |s| ==> MatchAt(s, q).None?
    decreases |s| - p
  {
    if p == |s| {
      assert MatchAt(s, p) == MatchHere([]);
    } else if MatchAt(s, p).None? {
      FindMatchSpec(s, p + 1);
    }
  }

  /** One line: the entry of its first tag, or nothing. */
  function ParseLine(s: string): Option<SyncedLine> {
    var p := FindMatch(s, 0);
    if p < 0 then None
    else
      FindMatchSpec(s, 0);
      var t := MatchAt(s, p).value;
      Some(SyncedLine(t.minutes * 6000 + t.seconds * 100 + t.centis, t.text))
  }

  // ---------------------------------------------------------------------------------------------
  // Lines

  /** `s.split('\n')`. */
  function Split(s: string): (r: seq<string>)
    ensures |r| >= 1
    ensures forall i :: 0 <= i < |r| ==> '\n' !in r[i]
  {
    if s == [] then [""]
    else if s[0] == '\n' then [""] + Split(s[1..])
    else
      var r := Split(s[1..]);
      [[s[0]] + r[0]] + r[1..]
  }

  /** `ls.join('\n')`: the inverse of `Split`. */
  function Join(ls: seq<string>): string
    requires |ls| >= 1
  {
    if |ls| == 1 then ls[0] else ls[0] + "\n" + Join(ls[1..])
  }

  lemma {:induction false} JoinSplit(s: string)
    ensures Join(Split(s)) == s
  {
    if s != [] {
      JoinSplit(s[1..]);
      if s[0] != '\n' {
        var r := Split(s[1..]);
        if |r| == 1 {
          assert Join(Split(s)) == [s[0]] + r[0];
        } else {
          assert Split(s)[1..] == r[1..];
          assert Join(Split(s)) == ([s[0]] + r[0]) + "\n" + Join(r[1..]);
        }
      }
    }
  }

  /** `.filter(line => line.trim())`. */
  function NonBlankLines(ls: seq<string>): (r: seq<string>)
    ensures |r| <= |ls|
    ensures forall i :: 0 <= i < |r| ==> NonBlank(r[i]) && r[i] in ls
    ensures forall l :: l in ls && NonBlank(l) ==> l in r
  {
    if ls == [] then []
    else NonBlankLines(ls[..|ls| - 1]) + (if NonBlank(ls[|ls| - 1]) then [ls[|ls| - 1]] else [])
  }

  /** The filter keeps the order of the lines: filtering two blocks of lines one after the other is
      filtering them together. */
  lemma {:induction false} NonBlankLinesAppend(a: seq<string>, b: seq<string>)
    ensures NonBlankLines(a + b) == NonBlankLines(a) + NonBlankLines(b)
  {
    if b == [] {
      assert a + b == a;
    } else {
      var b', x := b[..|b| - 1], b[|b| - 1];
      assert (a + b)[..|a + b| - 1] == a + b' && (a + b)[|a + b| - 1] == x;
      var tail := if NonBlank(x) then [x] else [];
      assert NonBlankLines(a + b) == NonBlankLines(a + b') + tail;
      NonBlankLinesAppend(a, b');
      assert NonBlankLines(b) == NonBlankLines(b') + tail;
    }
  }

  /** A single line is kept exactly when it is not blank. */
  lemma NonBlankLine(l: string)
    ensures NonBlankLines([l]) == if NonBlank(l) then [l] else []
  {
    assert [l][..0] == [];
  }

  /** The entries the parsing loop pushes, in line order. */
  function Entries(ls: seq<string>): (r: seq<SyncedLine>)
    ensures |r| <= |ls|
    ensures forall e :: e in r <==> exists l :: l in ls && ParseLine(l) == Some(e)
  {
    if ls == [] then []
    else
      var e := ParseLine(ls[|ls| - 1]);
      var p := ls[..|ls| - 1];
      assert forall l :: l in ls <==> l in p || l == ls[|ls| - 1];
      Entries(p) + (if e.Some? then [e.value] else [])
  }

  /** The entries keep the order of the lines: parsing two blocks of lines one after the other is
      parsing them together. */
  lemma {:induction false} EntriesAppend(a: seq<string>, b: seq<string>)
    ensures Entries(a + b) == Entries(a) + Entries(b)
  {
    if b == [] {
      assert a + b == a;
    } else {
      var b', x := b[..|b| - 1], b[|b| - 1];
      assert (a + b)[..|a + b| - 1] == a + b' && (a + b)[|a + b| - 1] == x;
      var tail := if ParseLine(x).Some? then [ParseLine(x).value] else [];
      assert Entries(a + b) == Entries(a + b') + tail;
      EntriesAppend(a, b');
      assert Entries(b) == Entries(b') + tail;
    }
  }

  /** Each line gives at most one entry: an untagged line gives none, a tagged line exactly its
      parse. */
  lemma EntriesLine(l: string)
    ensures Entries([l]) == if ParseLine(l).Some? then [ParseLine(l).value] else []
  {
    assert [l][..0] == [];
  }

  // ---------------------------------------------------------------------------------------------
  // Sorting: `Array.prototype.sort` is stable, so lines with equal times keep their order.

  function Insert(x: SyncedLine, r: seq<SyncedLine>): seq<SyncedLine> {
    if r == [] || x.time <= r[0].time then [x] + r else [r[0]] + Insert(x, r[1..])
  }

  function SortByTime(s: seq<SyncedLine>): seq<SyncedLine> {
    if s == [] then [] else Insert(s[0], SortByTime(s[1..]))
  }

  ghost predicate Sorted(r: seq<SyncedLine>) {
    forall i, j :: 0 <= i < j < |r| ==> r[i].time <= r[j].time
  }

  /** The lines of `s` at time `t`, in order. */
  function AtTime(s: seq<SyncedLine>, t: nat): seq<SyncedLine> {
    if s == [] then [] else (if s[0].time == t then [s[0]] else []) + AtTime(s[1..], t)
  }

  lemma {:induction false} InsertMultiset(x: SyncedLine, r: seq<SyncedLine>)
    ensures multiset(Insert(x, r)) == multiset(r) + multiset{x}
  {
    if r != [] && x.time > r[0].time {
      InsertMultiset(x, r[1..]);
      assert r == [r[0]] + r[1..];
    }
  }

  lemma {:induction false} InsertSorted(x: SyncedLine, r: seq<SyncedLine>)
    requires Sorted(r)
    ensures Sorted(Insert(x, r))
  {
    if r != [] && x.time > r[0].time {
      InsertSorted(x, r[1..]);
      InsertMultiset(x, r[1..]);
      var ins := Insert(x, r[1..]);
      forall k | 0 <= k < |ins| ensures r[0].time <= ins[k].time {
        assert ins[k] in multiset(ins);
        assert ins[k] == x || ins[k] in multiset(r[1..]);
      }
    }
  }

  /** Inserting keeps the order of the lines of each time, the new one first among its equals. */
  lemma {:induction false} InsertAtTime(x: SyncedLine, r: seq<SyncedLine>, t: nat)
    ensures AtTime(Insert(x, r), t) == (if x.time == t then [x] else []) + AtTime(r, t)
  {
    if r != [] && x.time > r[0].time {
      InsertAtTime(x, r[1..], t);
      assert ([r[0]] + Insert(x, r[1..]))[1..] == Insert(x, r[1..]);
    } else {
      assert ([x] + r)[1..] == r;
    }
  }

  /** The sorted lines are ordered by time, are a permutation of the input, and lines of equal time
      appear in their original order. */
  lemma {:induction false} SortByTimeSpec(s: seq<SyncedLine>)
    ensures Sorted(SortByTime(s))
    ensures multiset(SortByTime(s)) == multiset(s)
    ensures forall t :: AtTime(SortByTime(s), t) == AtTime(s, t)
  {
    if s != [] {
      SortByTimeSpec(s[1..]);
      InsertSorted(s[0], SortByTime(s[1..]));
      InsertMultiset(s[0], SortByTime(s[1..]));
      forall t ensures AtTime(SortByTime(s), t) == AtTime(s, t) {
        InsertAtTime(s[0], SortByTime(s[1..]), t);
      }
      assert s == [s[0]] + s[1..];
    }
  }

  /** `parseSyncedLyrics(text)`. */
  method ParseSyncedLyrics(text: string) returns (r: seq<SyncedLine>)
    ensures r == SortByTime(Entries(NonBlankLines(Split(text))))
    ensures |r| <= |NonBlankLines(Split(text))|
    ensures Sorted(r)
    ensures multiset(r) == multiset(Entries(NonBlankLines(Split(text))))
    ensures forall t :: AtTime(r, t) == AtTime(Entries(NonBlankLines(Split(text))), t)
  {
    var lines := NonBlankLines(Split(text));
    var parsed: seq<SyncedLine> := [];
    for i := 0 to |lines|
      invariant parsed == Entries(lines[..i])
    {
      assert lines[..i + 1][..i] == lines[..i];
      assert lines[..i + 1][i] == lines[i];
      var e := ParseLine(lines[i]);
      if e.Some? {
        parsed := parsed + [e.value];
      }
    }
    assert lines[..|lines|] == lines;
    SortByTimeSpec(parsed);
    assert |multiset(parsed)| == |parsed|;
    r := SortByTime(parsed);
    assert |r| == |multiset(r)|;
  }

  // ---------------------------------------------------------------------------------------------
  // Format and parse

  /** The decimal digits of `n`, without leading zeros. */
  function Digits(n: nat): (s: string)
    ensures |s| >= 1 && forall k :: 0 <= k < |s| ==> IsDigit(s[k])
  {
    if n < 10 then [('0' as int + n) as char] else Digits(n / 10) + [('0' as int + n % 10) as char]
  }

  lemma {:induction false} DigitsRoundTrip(n: nat)
    ensures DigitsValue(Digits(n)) == n
  {
    if n >= 10 {
      DigitsRoundTrip(n / 10);
      assert Digits(n)[..|Digits(n)| - 1] == Digits(n / 10);
    }
  }

  /** A line as a lyrics file writes it: `[m:ss.cc]text`. */
  function FormatLine(l: SyncedLine): string {
    "[" + Digits(l.time / 6000) + ":" + Digits(l.time % 6000 / 100) + "." + Digits(l.time % 100) + "]" + l.text
  }

  predicate AllDigits(g: string) {
    forall k :: 0 <= k < |g| ==> IsDigit(g[k])
  }

  lemma DigitGroup(g: string, delim: char, rest: string)
    requires |g| >= 1 && AllDigits(g) && !IsDigit(delim)
    ensures Group(g + [delim] + rest, delim) == Some((DigitsValue(g), rest))
  {
    var t := g + [delim] + rest;
    DigitRunExact(t, 0, |g|);
    assert t[..|g|] == g;
    assert t[|g| + 1..] == rest;
  }

  /** The pattern matches a tag at the start of a line, with each group as written. */
  lemma MatchTag(m: string, sec: string, c: string, text: string)
    requires |m| >= 1 && |sec| >= 1 && |c| >= 1 && AllDigits(m) && AllDigits(sec) && AllDigits(c)
    requires text == [] || !IsJsSpace(text[0])
    requires !HasLineTerminator(text)
    ensures MatchHere("[" + m + ":" + sec + "." + c + "]" + text) ==
            Some(Tag(DigitsValue(m), DigitsValue(sec), DigitsValue(c), text))
  {
    var r2 := c + [']'] + text;
    var r1 := sec + ['.'] + r2;
    var t := ['['] + (m + [':'] + r1);
    DigitGroup(m, ':', r1);
    DigitGroup(sec, '.', r2);
    DigitGroup(c, ']', text);
    assert t[1..] == m + [':'] + r1;
    assert SpaceRun(text, 0) == 0;
    assert text[0..] == text;
    MatchHereGroups(t, r1, r2, text, DigitsValue(m), DigitsValue(sec), DigitsValue(c));
    ConcatTag(m, sec, c, text);
  }

  /** `MatchHere` once its three groups are known. */
  lemma MatchHereGroups(t: string, t1: string, t2: string, t3: string, a: nat, b: nat, c: nat)
    requires t != [] && t[0] == '['
    requires Group(t[1..], ':') == Some((a, t1))
    requires Group(t1, '.') == Some((b, t2))
    requires Group(t2, ']') == Some((c, t3))
    requires SpaceRun(t3, 0) == 0 && !HasLineTerminator(t3)
    ensures MatchHere(t) == Some(Tag(a, b, c, t3))
  {
    assert t3[0..] == t3;
  }

  lemma ConcatTag(m: string, sec: string, c: string, text: string)
    ensures ['['] + (m + [':'] + (sec + ['.'] + (c + [']'] + text))) == "[" + m + ":" + sec + "." + c + "]" + text
  {
  }

  /** A time in hundredths is its minutes, seconds and hundredths put back together. */
  lemma TimeParts(t: nat)
    ensures (t / 6000) * 6000 + (t % 6000 / 100) * 100 + t % 100 == t
  {
    var q, r := t / 6000, t % 6000;
    assert t == 6000 * q + r;
    assert r == 100 * (r / 100) + r % 100;
    assert t == 100 * (60 * q + r / 100) + r % 100;
    assert t % 100 == r % 100;
  }

  /** A line written by `FormatLine` parses back to itself, provided its text neither starts with
      white space (the parser drops it) nor contains a line terminator (the pattern rejects it). */
  lemma ParseFormatLine(l: SyncedLine)
    requires l.text == [] || !IsJsSpace(l.text[0])
    requires !HasLineTerminator(l.text)
    ensures ParseLine(FormatLine(l)) == Some(l)
  {
    var mi, si, ci := l.time / 6000, l.time % 6000 / 100, l.time % 100;
    var s := FormatLine(l);
    MatchTag(Digits(mi), Digits(si), Digits(ci), l.text);
    DigitsRoundTrip(mi);
    DigitsRoundTrip(si);
    DigitsRoundTrip(ci);
    assert MatchHere(s) == Some(Tag(mi, si, ci, l.text));
    ParseLineAtStart(s, Tag(mi, si, ci, l.text));
    TimeParts(l.time);
  }

  /** A line whose start matches parses to the entry of that match. */
  lemma ParseLineAtStart(s: string, tag: Tag)
    requires MatchHere(s) == Some(tag)
    ensures ParseLine(s) == Some(SyncedLine(tag.minutes * 6000 + tag.seconds * 100 + tag.centis, tag.text))
  {
    assert s[0..] == s;
    assert MatchAt(s, 0) == Some(tag);
    assert FindMatch(s, 0) == 0;
  }

  lemma DigitRunExact(s: string, i: nat, n: nat)
    requires i + n < |s|
    requires forall k :: i <= k < i + n ==> IsDigit(s[k])
    requires !IsDigit(s[i + n])
    ensures DigitRun(s, i) == n
    decreases n
  {
    if n > 0 {
      DigitRunExact(s, i + 1, n - 1);
    }
  }

  // ---------------------------------------------------------------------------------------------
  // The line being sung

  function Seconds(l: SyncedLine): real {
    l.time as real / 100.0
  }

  /** Reference definition: the last line whose time has been reached, or -1. */
  function LastReached(lines: seq<SyncedLine>, currentTime: real): (r: int)
    ensures -1 <= r < |lines|
  {
    if lines == [] then -1
    else if currentTime >= Seconds(lines[|lines| - 1]) then |lines| - 1
    else LastReached(lines[..|lines| - 1], currentTime)
  }

  /** `getCurrentLineIndex(lines, currentTime)`. */
  method GetCurrentLineIndex(lines: seq<SyncedLine>, currentTime: real) returns (r: int)
    ensures -1 <= r < |lines|
    ensures r >= 0 ==> currentTime >= Seconds(lines[r])
    ensures forall j :: r < j < |lines| ==> currentTime < Seconds(lines[j])
    ensures r == LastReached(lines, currentTime)
  {
    if |lines| == 0 {
      return -1;
    }
    var i := |lines| - 1;
    assert lines[..i + 1] == lines;
    while i >= 0
      invariant -1 <= i < |lines|
      invariant forall j :: i < j < |lines| ==> currentTime < Seconds(lines[j])
      invariant LastReached(lines, currentTime) == LastReached(lines[..i + 1], currentTime)
    {
      assert lines[..i + 1][..i] == lines[..i];
      if currentTime >= Seconds(lines[i]) {
        return i;
      }
      i := i - 1;
    }
    return -1;
  }

  /** A later playback time never selects an earlier line. */
  lemma {:induction false} LastReachedMonotone(lines: seq<SyncedLine>, t1: real, t2: real)
    requires t1 <= t2
    ensures LastReached(lines, t1) <= LastReached(lines, t2)
  {
    if lines != [] && t2 < Seconds(lines[|lines| - 1]) {
      LastReachedMonotone(lines[..|lines| - 1], t1, t2);
    }
  }

  /** On sorted lines, every line up to the selected one has been reached, and none after it. */
  lemma {:induction false} LastReachedSorted(lines: seq<SyncedLine>, t: real)
    requires Sorted(lines)
    ensures forall j :: 0 <= j < |lines| ==> (t >= Seconds(lines[j]) <==> j <= LastReached(lines, t))
  {
    if lines != [] {
      var p := lines[..|lines| - 1];
      if t < Seconds(lines[|lines| - 1]) {
        LastReachedSorted(p, t);
        assert forall j :: 0 <= j < |p| ==> p[j] == lines[j];
      }
    }
  }

  // ---------------------------------------------------------------------------------------------
  // Choosing and caching a search result

  datatype LyricsData = LyricsData(
    id: int, trackName: string, artistName: string, albumName: string, duration: real,
    instrumental: bool, plainLyrics: Option<string>, syncedLyrics: Option<string>)

  /** `Math.round(x)`: halves round up. */
  function Round(x: real): int {
    (x + 0.5).Floor
  }

  function Abs(x: real): real {
    if x < 0.0 then -x else x
  }

  predicate Fits(r: LyricsData, target: int) {
    Abs(r.duration - target as real) <= 5.0
  }

  /** The index of the first result within five seconds of `target`, or -1. */
  function FirstFit(rs: seq<LyricsData>, target: int): (i: int)
    ensures -1 <= i < |rs|
    ensures i >= 0 ==> Fits(rs[i], target) && forall k :: 0 <= k < i ==> !Fits(rs[k], target)
    ensures i == -1 ==> forall k :: 0 <= k < |rs| ==> !Fits(rs[k], target)
  {
    if rs == [] then -1
    else if Fits(rs[0], target) then 0
    else var i := FirstFit(rs[1..], target); if i < 0 then -1 else i + 1
  }

  /** `results.find(r => |r.duration - round(duration)| <= 5) || results[0]`. */
  function BestMatch(rs: seq<LyricsData>, duration: real): (b: LyricsData)
    requires |rs| > 0
    ensures b in rs
    ensures Fits(b, Round(duration)) || forall k :: 0 <= k < |rs| ==> !Fits(rs[k], Round(duration))
    ensures (forall k :: 0 <= k < |rs| ==> !Fits(rs[k], Round(duration))) ==> b == rs[0]
    ensures forall k :: 0 <= k < |rs| && Fits(rs[k], Round(duration)) ==>
      exists i :: 0 <= i <= k && rs[i] == b && forall j :: 0 <= j < i ==> !Fits(rs[j], Round(duration))
  {
    var i := FirstFit(rs, Round(duration));
    if i < 0 then rs[0] else rs[i]
  }

  /** What the cache lookup gave. */
  datatype CacheLookup = Hit(data: LyricsData) | Miss | LookupThrew

  /** What the search request gave: it threw, answered non-ok, or answered with a list. */
  datatype SearchResult = SearchThrew | NotOk | Results(results: seq<LyricsData>)

  /** The value `getLyrics` resolves to, and the cache write it attempted (whether or not that write
      then threw). */
  datatype LyricsOutcome = LyricsOutcome(result: Option<LyricsData>, attempted: Option<LyricsData>)

  /** `getLyrics(trackName, artistName, duration)`; `writeOk` is whether the cache write resolved. */
  function GetLyrics(cached: CacheLookup, search: SearchResult, duration: real, writeOk: bool): (o: LyricsOutcome)
    ensures cached.Hit? ==> o == LyricsOutcome(Some(cached.data), None)
    ensures cached.LookupThrew? ==> o == LyricsOutcome(None, None)
    ensures cached.Miss? && (search.SearchThrew? || search.NotOk? || (search.Results? && search.results == [])) ==>
      o == LyricsOutcome(None, None)
    ensures o.attempted.Some? ==> cached.Miss? && search.Results? && o.attempted.value in search.results
    ensures o.result.Some? && !cached.Hit? ==> o.attempted == o.result && writeOk
    ensures cached.Miss? && search.Results? && search.results != [] ==>
      o.attempted == Some(BestMatch(search.results, duration)) && o.result == (if writeOk then o.attempted else None)
  {
    match cached
    case Hit(d) => LyricsOutcome(Some(d), None)
    case LookupThrew => LyricsOutcome(None, None)
    case Miss =>
      match search
      case SearchThrew => LyricsOutcome(None, None)
      case NotOk => LyricsOutcome(None, None)
      case Results(rs) =>
        if rs == [] then LyricsOutcome(None, None)
        else
          var b := BestMatch(rs, duration);
          if writeOk then LyricsOutcome(Some(b), Some(b)) else LyricsOutcome(None, Some(b))
  }

  /** A cache hit does not depend on the network at all. */
  lemma CacheHitSkipsFetch(d: LyricsData, s1: SearchResult, s2: SearchResult, duration: real, w1: bool, w2: bool)
    ensures GetLyrics(Hit(d), s1, duration, w1) == GetLyrics(Hit(d), s2, duration, w2)
  {
  }

  // ---------------------------------------------------------------------------------------------
  // Messages

  const NoLyricsMessages: seq<string> := [
    "\U{1F3A4} You caught us! We don't have lyrics for this one.",
    "\U{1F3B5} Time to guess the lyrics yourself!",
    "\U{1F3B6} This one's a mystery - no lyrics here!",
    "\U{1F3B8} La la la... (we don't have the lyrics)",
    "\U{1F3B9} Instrumental vibes only (or we just don't have it)",
    "\U{1F3A7} No lyrics? More room for imagination!",
    "\U{1F3BC} The lyrics are playing hide and seek!",
    "\U{1F3AA} Sing whatever you want - no lyrics to judge you!"
  ]

  const NoSyncedLyricsMessage: string :=
    "\U{23F1}\U{FE0F} Hmm, this song doesn't have synced lyrics yet, but here's the plain text!"

  /** `getRandomNoLyricsMessage()`, with `Math.random()` as the parameter `r`. */
  function RandomNoLyricsMessage(r: real): (m: string)
    requires 0.0 <= r < 1.0
    ensures m in NoLyricsMessages
    ensures m == NoLyricsMessages[(r * 8.0).Floor]
  {
    NoLyricsMessages[(r * |NoLyricsMessages| as real).Floor]
  }
}
